/**
 * server/handler/files.go: the workspace file listing. The file system is
 * the parameter `fs` (what a path names: nothing, a file, an unreadable
 * directory, or a directory with its entries) and `filepath.Clean` is the
 * parameter `clean`; `filepath.Join(a, b)` is `clean(a + "/" + b)`.
 */
module ServerFiles {
  import opened GoStrings

  datatype Entry = Entry(name: string, isDir: bool, size: int, modTime: int)

  datatype FileInfo = FileInfo(name: string, path: string, isDir: bool, size: int, modTime: int)

  datatype PathState = NoSuchPath | NotADirectory | Unreadable | Directory(entries: seq<Entry>)

  datatype FilesResponse = FilesResponse(code: int, message: string, data: seq<FileInfo>)

  /** Go's `<` on strings: byte-wise lexicographic, which for UTF-8 is code-point order. */
  predicate StrLess(a: string, b: string)
    decreases |a|
  {
    if |a| == 0 then |b| > 0
    else if |b| == 0 then false
    else if a[0] != b[0] then a[0] < b[0]
    else StrLess(a[1..], b[1..])
  }

  lemma {:induction false} StrLessIrreflexive(a: string)
    ensures !StrLess(a, a)
    decreases |a|
  {
    if |a| > 0 {
      StrLessIrreflexive(a[1..]);
    }
  }

  lemma {:induction false} StrLessTransitive(a: string, b: string, c: string)
    requires StrLess(a, b) && StrLess(b, c)
    ensures StrLess(a, c)
    decreases |a|
  {
    if |a| > 0 && a[0] == b[0] && b[0] == c[0] {
      StrLessTransitive(a[1..], b[1..], c[1..]);
    }
  }

  lemma {:induction false} StrLessTotal(a: string, b: string)
    requires a != b
    ensures StrLess(a, b) || StrLess(b, a)
    decreases |a|
  {
    if |a| > 0 && |b| > 0 && a[0] == b[0] {
      assert a == [a[0]] + a[1..] && b == [b[0]] + b[1..];
      StrLessTotal(a[1..], b[1..]);
    }
  }

  /** The sort comparator: directories first, then newer first, then by name. */
  predicate Less(a: FileInfo, b: FileInfo) {
    if a.isDir != b.isDir then a.isDir
    else if a.modTime != b.modTime then a.modTime > b.modTime
    else StrLess(a.name, b.name)
  }

  lemma LessIrreflexive(a: FileInfo)
    ensures !Less(a, a)
  {
    StrLessIrreflexive(a.name);
  }

  lemma LessTransitive(a: FileInfo, b: FileInfo, c: FileInfo)
    requires Less(a, b) && Less(b, c)
    ensures Less(a, c)
  {
    if a.isDir == b.isDir == c.isDir && a.modTime == b.modTime == c.modTime {
      StrLessTransitive(a.name, b.name, c.name);
    }
  }

  /** Entries with different names are always ordered one way or the other. */
  lemma LessTotal(a: FileInfo, b: FileInfo)
    requires a.name != b.name
    ensures Less(a, b) || Less(b, a)
  {
    StrLessTotal(a.name, b.name);
  }

  /** Not being after is transitive (the comparator is a strict weak order). */
  lemma NotLessTransitive(a: FileInfo, b: FileInfo, c: FileInfo)
    requires !Less(b, a) && !Less(c, b)
    ensures !Less(c, a)
  {
    if a.isDir != b.isDir || a.modTime != b.modTime || a.name != b.name {
      if a.name != b.name {
        LessTotal(a, b);
      }
      assert Less(a, b);
      if Less(c, a) {
        LessTransitive(c, a, b);
      }
    }
  }

  ghost predicate Sorted(s: seq<FileInfo>) {
    forall i, j :: 0 <= i < j < |s| ==> !Less(s[j], s[i])
  }

  function Insert(x: FileInfo, s: seq<FileInfo>): (r: seq<FileInfo>)
    ensures multiset(r) == multiset(s) + multiset{x}
    decreases |s|
  {
    if |s| == 0 then [x]
    else if Less(s[0], x) then
      assert s == [s[0]] + s[1..];
      [s[0]] + Insert(x, s[1..])
    else [x] + s
  }

  /** sort.Slice with the comparator: a sorted permutation (the order is fixed by the lemmas below). */
  function SortFiles(s: seq<FileInfo>): (r: seq<FileInfo>)
    ensures multiset(r) == multiset(s)
    decreases |s|
  {
    if |s| == 0 then []
    else
      assert s == [s[0]] + s[1..];
      Insert(s[0], SortFiles(s[1..]))
  }

  lemma {:induction false} InsertSorted(x: FileInfo, s: seq<FileInfo>)
    requires Sorted(s)
    ensures Sorted(Insert(x, s))
    decreases |s|
  {
    if |s| > 0 {
      if Less(s[0], x) {
        InsertSorted(x, s[1..]);
        InsertAfterHead(x, s, Insert(x, s[1..]));
      } else {
        InsertAtHead(x, s);
      }
    }
  }

  /** Inserting past the head keeps the head first. */
  lemma InsertAfterHead(x: FileInfo, s: seq<FileInfo>, r: seq<FileInfo>)
    requires Sorted(s) && |s| > 0 && Less(s[0], x)
    requires Sorted(r) && multiset(r) == multiset(s[1..]) + multiset{x}
    ensures Sorted([s[0]] + r)
  {
    var t := s[1..];
    forall j | 0 <= j < |r|
      ensures !Less(r[j], s[0])
    {
      var y := r[j];
      assert y in multiset(r);
      if y == x {
        if Less(x, s[0]) { LessTransitive(x, s[0], x); LessIrreflexive(x); }
      } else {
        assert y in multiset(t);
        var k :| 0 <= k < |t| && t[k] == y;
        assert s[k + 1] == y;
      }
    }
    forall i, j | 0 <= i < j < |r| + 1
      ensures !Less(([s[0]] + r)[j], ([s[0]] + r)[i])
    {
      if i > 0 {
        assert ([s[0]] + r)[j] == r[j - 1] && ([s[0]] + r)[i] == r[i - 1];
      } else {
        assert ([s[0]] + r)[j] == r[j - 1];
      }
    }
  }

  /** An element not after the head goes in front. */
  lemma InsertAtHead(x: FileInfo, s: seq<FileInfo>)
    requires Sorted(s) && |s| > 0 && !Less(s[0], x)
    ensures Sorted([x] + s)
  {
    forall i, j | 0 <= i < j < |s| + 1
      ensures !Less(([x] + s)[j], ([x] + s)[i])
    {
      if i == 0 {
        if j > 1 { NotLessTransitive(x, s[0], s[j - 1]); }
      }
    }
  }

  lemma {:induction false} SortFilesSorted(s: seq<FileInfo>)
    ensures Sorted(SortFiles(s))
    decreases |s|
  {
    if |s| > 0 {
      SortFilesSorted(s[1..]);
      InsertSorted(s[0], SortFiles(s[1..]));
    }
  }

  ghost predicate DistinctNames(s: seq<FileInfo>) {
    forall i, j :: 0 <= i < j < |s| ==> s[i].name != s[j].name
  }

  /** Within the multiset, an entry is determined by its name. */
  ghost predicate NameDetermines(m: multiset<FileInfo>) {
    forall x, y :: x in m && y in m && x.name == y.name ==> x == y
  }

  /**
   * When names determine entries a sorted permutation is unique: the result
   * does not depend on which sorting algorithm runs, stable or not.
   */
  lemma {:induction false} SortedUnique(s: seq<FileInfo>, t: seq<FileInfo>)
    requires Sorted(s) && Sorted(t) && multiset(s) == multiset(t) && NameDetermines(multiset(s))
    ensures s == t
    decreases |s|
  {
    if |s| == 0 {
      assert |t| == |multiset(t)| == 0;
    } else {
      SortedHeadEqual(s, t);
      MultisetTail(s, t);
      assert NameDetermines(multiset(s[1..])) by {
        MultisetTailSub(s);
      }
      SortedTail(s);
      SortedTail(t);
      SortedUnique(s[1..], t[1..]);
      assert s == [s[0]] + s[1..] && t == [t[0]] + t[1..];
    }
  }

  /** Both sorted permutations start with the same entry. */
  lemma SortedHeadEqual(s: seq<FileInfo>, t: seq<FileInfo>)
    requires Sorted(s) && Sorted(t) && multiset(s) == multiset(t) && NameDetermines(multiset(s))
    requires |s| > 0
    ensures |t| > 0 && s[0] == t[0]
  {
    assert |t| == |multiset(t)| == |s|;
    assert s[0] in multiset(t) && t[0] in multiset(s);
    var i :| 0 <= i < |t| && t[i] == s[0];
    var j :| 0 <= j < |s| && s[j] == t[0];
    if s[0] != t[0] {
      assert s[0].name != t[0].name;
      assert i > 0 && j > 0;
      assert !Less(s[0], t[0]);
      assert !Less(t[0], s[0]);
      LessTotal(s[0], t[0]);
    }
  }

  lemma MultisetTail(s: seq<FileInfo>, t: seq<FileInfo>)
    requires |s| > 0 && |t| > 0 && s[0] == t[0] && multiset(s) == multiset(t)
    ensures multiset(s[1..]) == multiset(t[1..])
  {
    assert s == [s[0]] + s[1..];
    assert t == [t[0]] + t[1..];
    assert multiset(s[1..]) == multiset(s) - multiset{s[0]};
    assert multiset(t[1..]) == multiset(t) - multiset{t[0]};
  }

  lemma MultisetTailSub(s: seq<FileInfo>)
    requires |s| > 0 && NameDetermines(multiset(s))
    ensures NameDetermines(multiset(s[1..]))
  {
    assert s == [s[0]] + s[1..];
    assert multiset(s[1..]) <= multiset(s);
  }

  lemma SortedTail(s: seq<FileInfo>)
    requires Sorted(s) && |s| > 0
    ensures Sorted(s[1..])
  {
    forall i, j | 0 <= i < j < |s| - 1 ensures !Less(s[1..][j], s[1..][i]) {
      assert s[1..][j] == s[j + 1] && s[1..][i] == s[i + 1];
    }
  }

  /** Hidden entries (names starting with `.`) are left out of the listing. */
  predicate Hidden(e: Entry) {
    HasPrefix(e.name, ".")
  }

  function InfoOf(e: Entry, subPath: string, clean: string -> string): FileInfo {
    FileInfo(e.name, if subPath == "" then e.name else clean(subPath + "/" + e.name), e.isDir, e.size, e.modTime)
  }

  /** The listing before sorting: the visible entries, in directory order. */
  function Visible(entries: seq<Entry>, subPath: string, clean: string -> string): seq<FileInfo>
    decreases |entries|
  {
    if |entries| == 0 then []
    else
      var n := |entries| - 1;
      Visible(entries[..n], subPath, clean)
      + (if Hidden(entries[n]) then [] else [InfoOf(entries[n], subPath, clean)])
  }

  lemma {:induction false} VisibleSpec(entries: seq<Entry>, subPath: string, clean: string -> string)
    ensures forall f :: f in Visible(entries, subPath, clean) <==>
      exists e :: e in entries && !Hidden(e) && f == InfoOf(e, subPath, clean)
    decreases |entries|
  {
    if |entries| > 0 {
      var n := |entries| - 1;
      VisibleSpec(entries[..n], subPath, clean);
      assert entries == entries[..n] + [entries[n]];
    }
  }

  /** The directory a request lists: the workspace, or the cleaned sub-path inside it. */
  function FullPath(baseDir: string, subPath: string, clean: string -> string): string {
    if subPath == "" then baseDir else clean(baseDir + "/" + clean(subPath))
  }

  /** GetFilesHandler. */
  method GetFiles(baseDir: string, subPath: string, clean: string -> string, fs: string -> PathState)
    returns (r: FilesResponse)
    ensures baseDir == "" ==> r.code == -1 && r.data == []
    ensures subPath != "" && Contains(clean(subPath), "..") ==> r.code == -1 && r.data == []
    ensures r.code == 0 <==> baseDir != "" && !(subPath != "" && Contains(clean(subPath), ".."))
                             && fs(FullPath(baseDir, subPath, clean)).Directory?
    ensures r.code == 0 ==> r.data == SortFiles(Visible(fs(FullPath(baseDir, subPath, clean)).entries, subPath, clean))
    ensures r.code != 0 ==> r.code == -1 && r.data == []
  {
    if baseDir == "" {
      return FilesResponse(-1, "FEIKONG_WORKSPACE_DIR 未配置", []);
    }
    if subPath != "" && Contains(clean(subPath), "..") {
      return FilesResponse(-1, "无效的路径", []);
    }
    var full := FullPath(baseDir, subPath, clean);
    match fs(full)
    case NoSuchPath => return FilesResponse(-1, "目录不存在或无法访问", []);
    case NotADirectory => return FilesResponse(-1, "路径不是目录", []);
    case Unreadable => return FilesResponse(-1, "读取目录失败", []);
    case Directory(entries) =>
      var fileList := [];
      var i := 0;
      while i < |entries|
        invariant 0 <= i <= |entries|
        invariant fileList == Visible(entries[..i], subPath, clean)
      {
        assert entries[..i + 1][..i] == entries[..i];
        if !HasPrefix(entries[i].name, ".") {
          fileList := fileList + [InfoOf(entries[i], subPath, clean)];
        }
        i := i + 1;
      }
      assert entries[..i] == entries;
      r := FilesResponse(0, "success", SortFiles(fileList));
  }

  /**
   * The listing is sorted, holds exactly the visible entries, and is the
   * only such order when the directory's names are distinct.
   */
  lemma ListingProperties(entries: seq<Entry>, subPath: string, clean: string -> string, other: seq<FileInfo>)
    requires DistinctNames(Visible(entries, subPath, clean))
    requires Sorted(other) && multiset(other) == multiset(Visible(entries, subPath, clean))
    ensures Sorted(SortFiles(Visible(entries, subPath, clean)))
    ensures forall f :: f in SortFiles(Visible(entries, subPath, clean)) <==>
      exists e :: e in entries && !Hidden(e) && f == InfoOf(e, subPath, clean)
    ensures other == SortFiles(Visible(entries, subPath, clean))
  {
    VisibleSpec(entries, subPath, clean);
    SortFilesSpec(Visible(entries, subPath, clean), other);
  }

  /** SortFiles gives the one sorted permutation of a listing with distinct names. */
  lemma SortFilesSpec(v: seq<FileInfo>, other: seq<FileInfo>)
    requires DistinctNames(v)
    requires Sorted(other) && multiset(other) == multiset(v)
    ensures Sorted(SortFiles(v))
    ensures forall f :: f in SortFiles(v) <==> f in v
    ensures other == SortFiles(v)
  {
    var s := SortFiles(v);
    SortFilesSorted(v);
    forall f ensures f in s <==> f in v {
      assert f in s <==> f in multiset(s);
      assert f in v <==> f in multiset(v);
    }
    DistinctDetermines(v);
    SortedUnique(s, other);
  }

  lemma DistinctDetermines(v: seq<FileInfo>)
    requires DistinctNames(v)
    ensures NameDetermines(multiset(v))
  {
    forall x: FileInfo, y: FileInfo | x in multiset(v) && y in multiset(v) && x.name == y.name ensures x == y {
      var a :| 0 <= a < |v| && v[a] == x;
      var b :| 0 <= b < |v| && v[b] == y;
      assert a == b;
    }
  }
}
