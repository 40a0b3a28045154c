/**
 * common/input_history.go: the command-line input history file. The file
 * system is a value: a history file is `Missing` or `Present(data)`; the
 * remaining I/O failures (directory creation, open and write errors, the
 * scanner's 64 KiB token limit) are not part of this model.
 */
module CommonInputHistory {
  import opened GoStrings

  datatype HistoryFile = Missing | Present(data: string)

  /** The file contents SaveHistory writes: every entry followed by a newline. */
  function Serialized(history: seq<string>): string
    decreases |history|
  {
    if |history| == 0 then "" else history[0] + "\n" + Serialized(history[1..])
  }

  /** bufio.ScanLines drops one trailing carriage return from each line. */
  function DropCR(s: string): string {
    if |s| > 0 && s[|s| - 1] == '\r' then s[..|s| - 1] else s
  }

  /** The lines bufio.Scanner yields with ScanLines: a last line without newline still counts. */
  function ScanLines(data: string): seq<string>
    decreases |data|
  {
    if |data| == 0 then []
    else
      var i := IndexChar(data, '\n');
      if i < 0 then [DropCR(data)] else [DropCR(data[..i])] + ScanLines(data[i + 1..])
  }

  /** The last `m` elements of `s` (all of them when there are fewer, none when m <= 0). */
  function LastN<T>(s: seq<T>, m: int): seq<T> {
    if m <= 0 then [] else if |s| <= m then s else s[|s| - m..]
  }

  /** SaveHistory: truncates the file and writes each entry followed by `\n`. */
  method SaveHistory(history: seq<string>) returns (file: HistoryFile)
    ensures file == Present(Serialized(history))
  {
    var content := "";
    var i := 0;
    while i < |history|
      invariant 0 <= i <= |history|
      invariant content == Serialized(history[..i])
    {
      SerializedSnoc(history[..i], history[i]);
      assert history[..i + 1] == history[..i] + [history[i]];
      content := content + (history[i] + "\n");
      i := i + 1;
    }
    assert history[..i] == history;
    file := Present(content);
  }

  /** LoadHistory: a missing file is an empty history; otherwise a window of the last maxLines lines. */
  method LoadHistory(file: HistoryFile, maxLines: int) returns (lines: seq<string>)
    ensures file.Missing? ==> lines == []
    ensures file.Present? ==> lines == LastN(ScanLines(file.data), maxLines)
  {
    if file.Missing? {
      return [];
    }
    var tokens := ScanLines(file.data);
    lines := [];
    var k := 0;
    while k < |tokens|
      invariant 0 <= k <= |tokens|
      invariant lines == LastN(tokens[..k], maxLines)
    {
      LastNSnoc(tokens[..k], tokens[k], maxLines);
      assert tokens[..k + 1] == tokens[..k] + [tokens[k]];
      lines := lines + [tokens[k]];
      if |lines| > maxLines {
        lines := lines[1..];
      }
      k := k + 1;
    }
    assert tokens[..k] == tokens;
  }

  /** ClearHistory truncates an existing file and succeeds on a missing one. */
  function ClearHistory(file: HistoryFile): (r: HistoryFile)
    ensures file.Missing? <==> r.Missing?
    ensures r.Present? ==> ScanLines(r.data) == []
  {
    if file.Missing? then Missing else Present("")
  }

  lemma {:induction false} SerializedSnoc(h: seq<string>, e: string)
    ensures Serialized(h + [e]) == Serialized(h) + (e + "\n")
    decreases |h|
  {
    if |h| == 0 {
      assert h + [e] == [e];
    } else {
      assert (h + [e])[1..] == h[1..] + [e];
      SerializedSnoc(h[1..], e);
    }
  }

  /** One step of the loader's sliding window. */
  lemma LastNSnoc<T>(s: seq<T>, x: T, m: int)
    ensures var w := LastN(s, m) + [x];
      LastN(s + [x], m) == if |w| > m then w[1..] else w
  {
    if m > 0 && |s| + 1 > m {
      if |s| <= m {
        assert (s + [x])[|s| + 1 - m..] == s[1..] + [x];
      } else {
        assert (s + [x])[|s| + 1 - m..] == s[|s| - m..][1..] + [x];
      }
    }
  }

  /** At most maxLines lines are kept, and they are the most recent ones, in order. */
  lemma LastNSpec<T>(s: seq<T>, m: int)
    ensures |LastN(s, m)| == (if m <= 0 then 0 else if |s| <= m then |s| else m)
    ensures LastN(s, m) == s[|s| - |LastN(s, m)|..]
  {
  }

  /** An entry the file format can carry: one line, not ending in a carriage return. */
  predicate StorableEntry(e: string) {
    '\n' !in e && !(|e| > 0 && e[|e| - 1] == '\r')
  }

  /** Scanning the saved file gives back exactly the saved entries. */
  lemma {:induction false} ScanSerialized(h: seq<string>)
    requires forall k :: 0 <= k < |h| ==> StorableEntry(h[k])
    ensures ScanLines(Serialized(h)) == h
    decreases |h|
  {
    if |h| > 0 {
      var data := Serialized(h);
      var e := h[0];
      assert StorableEntry(e);
      IndexCharSpec(data, '\n');
      assert data[|e|] == '\n';
      assert forall k :: 0 <= k < |e| ==> data[k] == e[k];
      assert IndexChar(data, '\n') == |e|;
      assert data[..|e|] == e;
      assert data[|e| + 1..] == Serialized(h[1..]);
      ScanSerialized(h[1..]);
    }
  }

  /** For storable entries, loading what SaveHistory wrote returns the last maxLines entries. */
  lemma SaveLoadRoundTrip(h: seq<string>, maxLines: int)
    requires forall k :: 0 <= k < |h| ==> StorableEntry(h[k])
    ensures LastN(ScanLines(Serialized(h)), maxLines) == LastN(h, maxLines)
  {
    ScanSerialized(h);
  }
}
