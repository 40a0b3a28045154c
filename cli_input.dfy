/**
 * cli/input.go: the multi-line input buffer, the `@agent` mention parser
 * and the work modes of the command-line client.
 */
module CliInput {
  import opened GoStrings
  import opened GoRegexp

  /** InputBuffer: lines ending in a backslash are held back until a line without one. */
  class InputBuffer {
    var lines: seq<string>
    var isContinuing: bool

    constructor ()
      ensures lines == [] && !isContinuing
    {
      lines := [];
      isContinuing := false;
    }

    /**
     * HandleInput: a trimmed line ending in `\` is buffered without the
     * backslash; any other line completes the command, which is every
     * buffered line and this one joined by newlines.
     */
    method HandleInput(in_: string) returns (finalCmd: string, needContinue: bool)
      modifies this
      ensures needContinue <==> HasSuffix(TrimSpace(in_), "\\")
      ensures needContinue ==>
        lines == old(lines) + [TrimSuffix(TrimSpace(in_), "\\")] && isContinuing && finalCmd == ""
      ensures !needContinue ==>
        finalCmd == Join(old(lines) + [TrimSpace(in_)], '\n') && lines == [] && !isContinuing
    {
      var cleanIn := TrimSpace(in_);
      if HasSuffix(cleanIn, "\\") {
        lines := lines + [TrimSuffix(cleanIn, "\\")];
        isContinuing := true;
        return "", true;
      }
      lines := lines + [cleanIn];
      finalCmd := Join(lines, '\n');
      lines := [];
      isContinuing := false;
      needContinue := false;
    }

    method IsContinuing() returns (c: bool)
      ensures c == isContinuing
    {
      c := isContinuing;
    }

    method Reset()
      modifies this
      ensures lines == [] && !isContinuing
    {
      lines := [];
      isContinuing := false;
    }
  }

  /** A completed command splits back into the lines that were entered, backslashes removed. */
  lemma CommandLines(held: seq<string>, last: string)
    requires forall k :: 0 <= k < |held| ==> '\n' !in held[k]
    requires '\n' !in last
    ensures Split(Join(held + [last], '\n'), '\n') == held + [last]
  {
    SplitJoin(held + [last], '\n');
  }

  /**
   * The Han script, approximated by the CJK ideograph blocks and the
   * ideographic iteration and number marks.
   */
  predicate IsHan(c: char) {
    ('⺀' <= c <= '⿕') || c == '々' || c == '〇'
    || ('〡' <= c <= '〩') || ('〸' <= c <= '〻')
    || ('㐀' <= c <= '䶿') || ('一' <= c <= '鿿')
    || ('豈' <= c <= '龎') || ('\U{20000}' <= c <= '\U{3134A}')
  }

  /** A character of `[\p{Han}\w]`; `\w` is ASCII letters, digits and `_` in Go's regexp. */
  predicate NameChar(c: char) {
    ('a' <= c <= 'z') || ('A' <= c <= 'Z') || ('0' <= c <= '9') || c == '_' || IsHan(c)
  }

  /** End of the maximal run of name characters starting at i. */
  function NameEnd(s: string, i: nat): (e: nat)
    requires i <= |s|
    ensures i <= e <= |s|
    ensures forall k :: i <= k < e ==> NameChar(s[k])
    ensures e < |s| ==> !NameChar(s[e])
    decreases |s| - i
  {
    if i < |s| && NameChar(s[i]) then NameEnd(s, i + 1) else i
  }

  datatype Mention = Mention(agentName: string, query: string)

  /** The regexp `^@([\p{Han}\w]+)\s*(.*)$` matches the trimmed input. */
  predicate MentionMatches(s: string) {
    |s| >= 2 && s[0] == '@' && NameChar(s[1]) && '\n' !in s[SpaceEnd(s, NameEnd(s, 1))..]
  }

  /**
   * ExtractAgentMention: on a match, the name (the maximal name run after
   * `@`) and the trimmed rest after the spaces that follow it; otherwise no
   * name and the trimmed input. `.` does not match a newline, so a newline
   * after the first query character defeats the match.
   */
  function ExtractAgentMention(input: string): (r: Mention)
    ensures MentionMatches(TrimSpace(input)) <==> r.agentName != ""
    ensures r.agentName != "" ==>
      HasPrefix(TrimSpace(input), "@" + r.agentName)
      && (forall k :: 0 <= k < |r.agentName| ==> NameChar(r.agentName[k]))
      && '\n' !in r.query
    ensures r.agentName == "" ==> r.query == TrimSpace(input)
  {
    var s := TrimSpace(input);
    if MentionMatches(s) then
      var n := NameEnd(s, 1);
      var w := SpaceEnd(s, n);
      assert s[..n] == "@" + s[1..n];
      TrimSpaceSub(s[w..]);
      Mention(s[1..n], TrimSpace(s[w..]))
    else Mention("", s)
  }

  /** TrimSpace only removes characters. */
  lemma TrimSpaceSub(s: string)
    ensures forall c :: c in TrimSpace(s) ==> c in s
  {
    var l := TrimLeftSpace(s);
    TrimLeftSpaceSpec(s);
    TrimRightSpaceSpec(l);
    forall c | c in TrimSpace(s) ensures c in s {
      var k :| 0 <= k < |TrimSpace(s)| && TrimSpace(s)[k] == c;
      assert l[k] == c;
      assert s[|s| - |l| + k] == c;
    }
  }

  /** `@name query` with a name run and a one-line trimmed query parses back into both. */
  lemma MentionRoundTrip(name: string, query: string)
    requires |name| > 0 && forall k :: 0 <= k < |name| ==> NameChar(name[k])
    requires |query| > 0 && '\n' !in query && TrimSpace(query) == query
    requires !ReSpace(query[0])
    ensures ExtractAgentMention("@" + name + " " + query) == Mention(name, query)
  {
    var input := "@" + name + " " + query;
    var s := TrimSpace(input);
    TrimSpaceOfMention(name, query);
    assert s == input;
    assert forall k :: 1 <= k < 1 + |name| ==> s[k] == name[k - 1];
    NameEndAt(s, 1, 1 + |name|);
    SpaceEndAt(s, 1 + |name|, 2 + |name|);
    assert s[2 + |name|..] == query;
    assert s[1..1 + |name|] == name;
  }

  lemma NameEndAt(s: string, i: nat, e: nat)
    requires i <= e <= |s|
    requires forall k :: i <= k < e ==> NameChar(s[k])
    requires e < |s| ==> !NameChar(s[e])
    ensures NameEnd(s, i) == e
    decreases e - i
  {
    if i < e {
      NameEndAt(s, i + 1, e);
    }
  }

  /** Trimming leaves a mention built from a trimmed query as it is. */
  lemma TrimSpaceOfMention(name: string, query: string)
    requires |name| > 0 && forall k :: 0 <= k < |name| ==> NameChar(name[k])
    requires |query| > 0 && TrimSpace(query) == query
    ensures TrimSpace("@" + name + " " + query) == "@" + name + " " + query
  {
    var input := "@" + name + " " + query;
    assert !IsSpace(input[0]);
    assert TrimLeftSpace(input) == input;
    TrimLeftSpaceSpec(query);
    TrimRightSpaceSpec(TrimLeftSpace(query));
    assert TrimLeftSpace(query) == query;
    assert input[|input| - 1] == query[|query| - 1];
  }

  /** The work modes; a WorkMode is a string in the source. */
  const ModeTeam := "team"
  const ModeDeep := "deep"
  const ModeGroup := "group"
  const ModeCustom := "custom"

  predicate KnownMode(m: string) {
    m == ModeTeam || m == ModeDeep || m == ModeGroup || m == ModeCustom
  }

  /** GetPromptPrefix: one prompt per known mode, a fallback for any other string. */
  function GetPromptPrefix(m: string): (p: string)
    ensures KnownMode(m) ==> p != "未知模式> "
    ensures !KnownMode(m) ==> p == "未知模式> "
  {
    if m == ModeTeam then "团队模式> "
    else if m == ModeDeep then "深度模式> "
    else if m == ModeGroup then "多智能体讨论模式> "
    else if m == ModeCustom then "自定义会议模式> "
    else "未知模式> "
  }

  /** The four known modes have distinct prompts. */
  lemma PromptPrefixInjective(m1: string, m2: string)
    requires KnownMode(m1) && KnownMode(m2) && m1 != m2
    ensures GetPromptPrefix(m1) != GetPromptPrefix(m2)
  {
  }

  /** ParseWorkMode: a known mode name gives that mode, anything else `team`. */
  function ParseWorkMode(s: string): (m: string)
    ensures KnownMode(m)
    ensures KnownMode(s) ==> m == s
    ensures !KnownMode(s) ==> m == ModeTeam
  {
    if s == ModeDeep then ModeDeep
    else if s == ModeGroup then ModeGroup
    else if s == ModeCustom then ModeCustom
    else ModeTeam
  }
}
