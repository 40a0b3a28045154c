/**
 * Agent mentions in the web client (web/js/agents.js): the `@name` prefix
 * that routes a message to one agent, the suggestion list that opens
 * while an `@partial` is being typed, its keyboard navigation, and the
 * completion that replaces the partial name with the chosen one.
 */
module WebAgents {
  import opened GoStrings
  import opened JsStrings

  datatype AgentInfo = AgentInfo(name: string, description: string)

  /** The text area: its value and the cursor (`selectionStart`). */
  datatype TextArea = TextArea(value: string, cursor: nat)

  /** The name class of the mention patterns, `[一-龥\w]`. */
  predicate IsNameChar(c: char) {
    ('a' <= c <= 'z') || ('A' <= c <= 'Z') || ('0' <= c <= '9') || c == '_'
    || ('\U{4E00}' <= c <= '\U{9FA5}')
  }

  predicate IsName(s: string) {
    |s| > 0 && forall k :: 0 <= k < |s| ==> IsNameChar(s[k])
  }

  predicate HasLineTerminator(s: string) {
    exists k :: 0 <= k < |s| && IsLineTerminator(s[k])
  }

  datatype Mention = Mention(agentName: string, query: string)

  /**
   * `t` is `@`, the whole name, a run of blanks and the query; the query
   * has no line break and no blank at either end.
   */
  predicate MentionOf(t: string, m: Mention) {
    IsName(m.agentName)
    && 1 + |m.agentName| + |m.query| <= |t|
    && t[..1 + |m.agentName|] == "@" + m.agentName
    && (1 + |m.agentName| == |t| || !IsNameChar(t[1 + |m.agentName|]))
    && t[|t| - |m.query|..] == m.query
    && (forall k :: 1 + |m.agentName| <= k < |t| - |m.query| ==> IsJsSpace(t[k]))
    && !HasLineTerminator(m.query)
    && (m.query == "" || (!IsJsSpace(m.query[0]) && !IsJsSpace(m.query[|m.query| - 1])))
  }

  /** A text with no blank at either end is its own trim. */
  lemma TrimOfTrimmed(s: string)
    requires s == "" || (!IsJsSpace(s[0]) && !IsJsSpace(s[|s| - 1]))
    ensures Trim(s) == s
  {
    assert TrimStartBy(s, IsJsSpace) == s;
  }

  /**
   * extractAgentMention: the trimmed input must be `@`, a name, blanks and
   * a single-line rest; the rest, trimmed, is the query.
   */
  function ExtractAgentMention(input: string): (r: Option<Mention>)
    ensures r.Some? ==> MentionOf(Trim(input), r.value)
  {
    var t := Trim(input);
    if |t| < 2 || t[0] != '@' || !IsNameChar(t[1]) then None
    else
      var n := RunEnd(t, 1, IsNameChar);
      var m := RunEnd(t, n, IsJsSpace);
      if HasLineTerminator(t[m..]) then None
      else
        MentionSplit(t, n, m);
        Some(Mention(t[1..n], Trim(t[m..])))
  }

  /** The pieces extractAgentMention cuts the trimmed input into form a mention. */
  lemma MentionSplit(t: string, n: nat, m: nat)
    requires 2 <= |t| && t[0] == '@' && 1 < n <= m <= |t| && !IsJsSpace(t[|t| - 1])
    requires forall k :: 1 <= k < n ==> IsNameChar(t[k])
    requires n == |t| || !IsNameChar(t[n])
    requires forall k :: n <= k < m ==> IsJsSpace(t[k])
    requires m == |t| || !IsJsSpace(t[m])
    requires !HasLineTerminator(t[m..])
    ensures Trim(t[m..]) == t[m..]
    ensures MentionOf(t, Mention(t[1..n], t[m..]))
  {
    var q := t[m..];
    var name := t[1..n];
    if q != "" {
      assert q[0] == t[m] && q[|q| - 1] == t[|t| - 1];
    }
    TrimOfTrimmed(q);
    assert |name| == n - 1 && |t| - |q| == m;
    assert IsName(name) by {
      assert forall k :: 0 <= k < |name| ==> name[k] == t[k + 1];
    }
    AtPrefix(t, n);
    assert !HasLineTerminator(q);
  }

  lemma AtPrefix(t: string, n: nat)
    requires 1 <= n <= |t| && t[0] == '@'
    ensures t[..n] == "@" + t[1..n]
  {
    var a := "@" + t[1..n];
    assert |a| == n && a[0] == '@';
    assert forall k :: 1 <= k < n ==> a[k] == t[k];
  }

  /** A mention counts only at the start: input whose first character is neither blank nor `@` has none. */
  lemma MentionOnlyAtStart(input: string)
    requires |input| > 0 && !IsJsSpace(input[0]) && input[0] != '@'
    ensures ExtractAgentMention(input).None?
  {
    var l := TrimStartBy(input, IsJsSpace);
    assert l == input;
  }

  /** "please @Alice do X" routes to no agent. */
  lemma MentionInsideText()
    ensures ExtractAgentMention("please @Alice do X").None?
  {
    MentionOnlyAtStart("please @Alice do X");
  }

  /**
   * The rest of a mention is matched by `(.*)$`, so a line break after
   * the first word of the query defeats the mention altogether.
   */
  lemma MentionDefeatedByLineBreak(name: string, a: string, b: string)
    requires IsName(name) && a != "" && !IsJsSpace(a[0])
    requires b != "" && !IsJsSpace(b[|b| - 1])
    ensures ExtractAgentMention("@" + name + " " + a + "\n" + b).None?
  {
    var s := "@" + name + " " + a + "\n" + b;
    assert s[|s| - 1] == b[|b| - 1];
    TrimOfTrimmed(s);
    var n := 1 + |name|;
    assert forall k :: 1 <= k < n ==> s[k] == name[k - 1];
    RunEndUnique(s, 1, n, IsNameChar);
    assert s[n] == ' ' && s[n + 1] == a[0];
    RunEndUnique(s, n, n + 1, IsJsSpace);
    var rest := s[n + 1..];
    assert rest == a + "\n" + b;
    assert IsLineTerminator(rest[|a|]);
    assert HasLineTerminator(rest);
  }

  /** Where the name and the blanks of a trimmed input end decides the mention. */
  lemma ExtractAt(input: string, n: nat, m: nat)
    requires var t := Trim(input);
      2 <= |t| && t[0] == '@' && 1 < n <= m <= |t|
      && (forall k :: 1 <= k < n ==> IsNameChar(t[k])) && (n == |t| || !IsNameChar(t[n]))
      && (forall k :: n <= k < m ==> IsJsSpace(t[k])) && (m == |t| || !IsJsSpace(t[m]))
      && !HasLineTerminator(t[m..])
    ensures ExtractAgentMention(input) == Some(Mention(Trim(input)[1..n], Trim(input)[m..]))
  {
    var t := Trim(input);
    assert IsNameChar(t[1]) && !IsJsSpace(t[|t| - 1]);
    RunEndUnique(t, 1, n, IsNameChar);
    RunEndUnique(t, n, m, IsJsSpace);
    MentionSplit(t, n, m);
    assert Trim(t[m..]) == t[m..];
  }

  /** A mention written out — `@name`, a blank, a one-line query — is read back exactly. */
  lemma MentionRoundTrip(name: string, query: string)
    requires IsName(name) && !HasLineTerminator(query)
    requires query == "" || (!IsJsSpace(query[0]) && !IsJsSpace(query[|query| - 1]))
    ensures ExtractAgentMention("@" + name + " " + query) == Some(Mention(name, query))
  {
    if query == "" {
      BareMention(name, "@" + name + " " + query);
    } else {
      var s := "@" + name + " " + query;
      var n := 1 + |name|;
      assert s[|s| - 1] == query[|query| - 1];
      TrimOfTrimmed(s);
      assert forall k :: 1 <= k < n ==> s[k] == name[k - 1];
      assert s[n] == ' ' && s[n + 1] == query[0];
      assert s[n + 1..] == query;
      assert s[1..n] == name;
      assert Trim(s) == s;
      assert forall k :: 1 <= k < n ==> IsNameChar(s[k]);
      assert !IsNameChar(s[n]) && IsJsSpace(s[n]) && !IsJsSpace(s[n + 1]);
      ExtractAt(s, n, n + 1);
    }
  }

  lemma BareMention(name: string, s: string)
    requires IsName(name) && s == "@" + name + " " + ""
    ensures ExtractAgentMention(s) == Some(Mention(name, ""))
  {
    var t := "@" + name;
    TrimBare(name);
    AtName(name);
    ExtractNameOnly(s, t);
  }

  lemma AtName(name: string)
    requires IsName(name)
    ensures var t := "@" + name; t[1..] == name && forall k :: 1 <= k < |t| ==> IsNameChar(t[k])
  {
    var t := "@" + name;
    assert forall k :: 1 <= k < |t| ==> t[k] == name[k - 1];
  }

  /** A trimmed input that is `@` and a name alone mentions that name with an empty query. */
  lemma ExtractNameOnly(input: string, t: string)
    requires t == Trim(input) && 2 <= |t| && t[0] == '@'
    requires forall k :: 1 <= k < |t| ==> IsNameChar(t[k])
    ensures ExtractAgentMention(input) == Some(Mention(t[1..], ""))
  {
    var rest := t[|t|..];
    assert rest == [];
    assert !HasLineTerminator(rest);
    ExtractTrimmed(input, t, |t|, |t|);
    assert t[1..|t|] == t[1..];
  }

  lemma TrimBare(name: string)
    requires IsName(name)
    ensures Trim("@" + name + " " + "") == "@" + name
  {
    var t := "@" + name;
    assert t[|t| - 1] == name[|name| - 1];
    assert "@" + name + " " + "" == t + " ";
    TrimBlankEnd(t);
  }

  lemma TrimBlankEnd(t: string)
    requires t != "" && !IsJsSpace(t[0]) && !IsJsSpace(t[|t| - 1])
    ensures Trim(t + " ") == t
  {
    var s := t + " ";
    assert s[0] == t[0];
    assert TrimStartBy(s, IsJsSpace) == s;
    assert s[|s| - 1] == ' ' && s[..|s| - 1] == t;
    assert TrimEndBy(s, IsJsSpace) == TrimEndBy(t, IsJsSpace);
    assert TrimEndBy(t, IsJsSpace) == t;
  }


  lemma ExtractTrimmed(input: string, t: string, n: nat, m: nat)
    requires t == Trim(input)
    requires 2 <= |t| && t[0] == '@' && 1 < n <= m <= |t|
    requires forall k :: 1 <= k < n ==> IsNameChar(t[k])
    requires n == |t| || !IsNameChar(t[n])
    requires forall k :: n <= k < m ==> IsJsSpace(t[k])
    requires m == |t| || !IsJsSpace(t[m])
    requires !HasLineTerminator(t[m..])
    ensures ExtractAgentMention(input) == Some(Mention(t[1..n], t[m..]))
  {
    ExtractAt(input, n, m);
  }

  /**
   * The `@partial` the text before the cursor ends with, `/@([一-龥\w]*)$/`:
   * the position of its `@`. Since `@` is not a name character, the match
   * is the one `@` right before the trailing run of name characters.
   */
  function AtMatch(before: string): (r: Option<nat>)
    ensures r.Some? ==> r.value < |before| && before[r.value] == '@'
                        && forall k :: r.value < k < |before| ==> IsNameChar(before[k])
  {
    var q := RunStart(before, |before|, IsNameChar);
    if q > 0 && before[q - 1] == '@' then Some(q - 1) else None
  }

  /** Without a match, every `@` before the cursor is followed by a character no name has. */
  lemma AtMatchNone(before: string)
    ensures AtMatch(before).None? ==> forall p :: 0 <= p < |before| && before[p] == '@' ==>
                                        exists k :: p < k < |before| && !IsNameChar(before[k])
  {
    var q := RunStart(before, |before|, IsNameChar);
    if AtMatch(before).None? {
      assert forall p :: 0 <= p < |before| && before[p] == '@' ==> p < q - 1 && !IsNameChar(before[q - 1]);
    }
  }

  /** The search text of a suggestion list: the partial name after `@`, if any. */
  function AtSearch(before: string): Option<string> {
    match AtMatch(before)
    case Some(p) => Some(before[p + 1..])
    case None => None
  }

  predicate NameMatches(a: AgentInfo, search: string) {
    Contains(ToLower(a.name), ToLower(search))
  }

  /** The agents whose name contains the search text, ignoring case, in list order. */
  function FilterAgents(agents: seq<AgentInfo>, search: string): (r: seq<AgentInfo>)
    ensures |r| <= |agents|
    ensures forall a :: a in r <==> a in agents && NameMatches(a, search)
  {
    if |agents| == 0 then []
    else
      var init := agents[..|agents| - 1];
      var last := agents[|agents| - 1];
      assert agents == init + [last];
      FilterAgents(init, search) + (if NameMatches(last, search) then [last] else [])
  }

  function Names(agents: seq<AgentInfo>): (r: seq<string>)
    ensures |r| == |agents|
    ensures forall k :: 0 <= k < |r| ==> r[k] == agents[k].name
  {
    if |agents| == 0 then [] else Names(agents[..|agents| - 1]) + [agents[|agents| - 1].name]
  }

  /** The suggestion list: shown or not, the names it lists, and selectedAgentIndex. */
  datatype AgentPopup = AgentPopup(shown: bool, names: seq<string>, selected: int)

  /** A shown list is non-empty with its selection in range; a hidden one selects nothing. */
  predicate PopupValid(p: AgentPopup) {
    (p.shown ==> |p.names| > 0 && 0 <= p.selected < |p.names|)
    && (!p.shown ==> p.selected == -1)
  }

  /** hideAgentSuggestions */
  function HideAgents(p: AgentPopup): AgentPopup {
    p.(shown := false, selected := -1)
  }

  /** showAgentSuggestions: the matching agents with the first selected, or hidden when none match. */
  function ShowAgents(p: AgentPopup, agents: seq<AgentInfo>, search: string): (r: AgentPopup)
    ensures PopupValid(r)
    ensures r.shown <==> exists a :: a in agents && NameMatches(a, search)
    ensures r.shown ==> r.names == Names(FilterAgents(agents, search)) && r.selected == 0
    ensures !r.shown ==> r == HideAgents(p)
  {
    var found := FilterAgents(agents, search);
    if |found| == 0 then HideAgents(p)
    else
      assert found[0] in found;
      AgentPopup(true, Names(found), 0)
  }

  /** The keys the suggestion lists react to (`KeyboardEvent.key`). */
  datatype Key = ArrowDown | ArrowUp | Enter | Tab | Escape | OtherKey

  /** The outcome of a key: whether it was handled, the list afterwards, and the name to insert. */
  datatype AgentKey = AgentKey(handled: bool, popup: AgentPopup, pick: Option<string>)

  /** handleSuggestionKeyDown */
  function AgentKeyDown(p: AgentPopup, key: Key): AgentKey {
    var n := |p.names|;
    if !p.shown || n == 0 then AgentKey(false, p, None)
    else if key == ArrowDown then AgentKey(true, p.(selected := JsRem(p.selected + 1, n)), None)
    else if key == ArrowUp then AgentKey(true, p.(selected := JsRem(p.selected - 1 + n, n)), None)
    else if key == Enter || key == Tab then
      if 0 <= p.selected < n then AgentKey(true, HideAgents(p), Some(p.names[p.selected])) else AgentKey(false, p, None)
    else if key == Escape then AgentKey(true, HideAgents(p), None)
    else AgentKey(false, p, None)
  }

  /**
   * Keys keep the list valid; with the list hidden nothing is handled and
   * nothing changes; the arrows move the selection by one, wrapping, and
   * Down then Up returns to the same row; Enter and Tab pick the selected
   * name, and the insertion that follows hides the list and clears the selection.
   */
  lemma AgentKeysValid(p: AgentPopup, key: Key)
    requires PopupValid(p)
    ensures PopupValid(AgentKeyDown(p, key).popup)
    ensures !p.shown ==> AgentKeyDown(p, key) == AgentKey(false, p, None)
    ensures p.shown && key == ArrowDown ==>
      AgentKeyDown(p, key).popup.selected == if p.selected + 1 == |p.names| then 0 else p.selected + 1
    ensures p.shown && key == ArrowUp ==>
      AgentKeyDown(p, key).popup.selected == if p.selected == 0 then |p.names| - 1 else p.selected - 1
    ensures p.shown ==> AgentKeyDown(AgentKeyDown(p, ArrowDown).popup, ArrowUp).popup == p
    ensures p.shown && (key == Enter || key == Tab) ==>
      AgentKeyDown(p, key).handled && AgentKeyDown(p, key).pick == Some(p.names[p.selected])
      && !AgentKeyDown(p, key).popup.shown && AgentKeyDown(p, key).popup.selected == -1
    ensures p.shown && key == Escape ==> AgentKeyDown(p, key) == AgentKey(true, HideAgents(p), None)
  {
    if p.shown {
      var n := |p.names|;
      WrapSteps(p.selected, n);
      var d := AgentKeyDown(p, ArrowDown).popup;
      WrapSteps(d.selected, n);
      assert d.selected == if p.selected + 1 == n then 0 else p.selected + 1;
      assert AgentKeyDown(d, ArrowUp).popup.selected == p.selected;
    }
  }

  /**
   * insertAgentMention: the `@partial` before the cursor becomes `@name `
   * and the cursor moves past the blank; without a partial the text stays.
   */
  function InsertAgentMention(area: TextArea, name: string): (r: TextArea)
    requires area.cursor <= |area.value|
    ensures r.cursor <= |r.value|
  {
    var before := area.value[..area.cursor];
    match AtMatch(before)
    case Some(at) =>
      TextArea(area.value[..at] + "@" + name + " " + area.value[area.cursor..], at + |name| + 2)
    case None => area
  }

  /**
   * After a completion the text before the cursor ends with `@name ` in
   * place of the partial, the text after the cursor is kept, and no
   * `@partial` is left open before the cursor.
   */
  lemma InsertCompletes(area: TextArea, name: string)
    requires area.cursor <= |area.value|
    requires AtMatch(area.value[..area.cursor]).Some?
    ensures var at := AtMatch(area.value[..area.cursor]).value;
      var r := InsertAgentMention(area, name);
      r.value[..r.cursor] == area.value[..at] + "@" + name + " "
      && r.value[r.cursor..] == area.value[area.cursor..]
      && AtMatch(r.value[..r.cursor]).None?
  {
    var at := AtMatch(area.value[..area.cursor]).value;
    var r := InsertAgentMention(area, name);
    var head := area.value[..at] + "@" + name + " ";
    assert r.value == head + area.value[area.cursor..];
    assert r.value[..r.cursor] == head;
    assert head[|head| - 1] == ' ';
  }

  /** Completing `@partial` typed at the start yields input that mentions the chosen agent. */
  lemma CompletionIsMention(partial: string, name: string)
    requires forall k :: 0 <= k < |partial| ==> IsNameChar(partial[k])
    requires IsName(name)
    ensures var area := TextArea("@" + partial, 1 + |partial|);
      ExtractAgentMention(InsertAgentMention(area, name).value) == Some(Mention(name, ""))
  {
    var v := "@" + partial;
    assert v[..1 + |partial|] == v;
    assert forall k :: 0 < k < |v| ==> IsNameChar(v[k]) by {
      forall k | 0 < k < |v| ensures IsNameChar(v[k]) { assert v[k] == partial[k - 1]; }
    }
    RunStartUnique(v, 1, |v|, IsNameChar);
    assert v[..0] + "@" + name + " " + v[|v|..] == "@" + name + " " + "";
    BareMention(name, "@" + name + " " + "");
  }

  /** The agent sendMessage routes to: the first with exactly the mentioned name. */
  function FindAgent(agents: seq<AgentInfo>, name: string): (r: Option<AgentInfo>)
    ensures r.Some? ==> r.value in agents && r.value.name == name
    ensures r.None? ==> forall a :: a in agents ==> a.name != name
  {
    if |agents| == 0 then None
    else if agents[0].name == name then Some(agents[0])
    else
      assert agents == [agents[0]] + agents[1..];
      FindAgent(agents[1..], name)
  }
}
