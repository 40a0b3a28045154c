/**
 * The chat transcript of the web client (web/js/messages.js) as values:
 * the cards in the messages container, the open assistant card that
 * streamed text goes into (`currentMessageElement`), and the flag that a
 * tool call came after that card's text (`hasToolCallAfterMessage`).
 * Each server event handler is a function from transcript to transcript;
 * rendering (HTML, Markdown, escaping) is left out, so a card holds the
 * text it displays. JSON.parse followed by JSON.stringify(…, null, 2) is
 * the oracle `json`, which yields None when the text does not parse.
 */
module WebCards {
  import opened GoStrings
  import opened JsStrings
  import opened Seqs

  type Json = string -> Option<string>

  /** The class of the leading-whitespace pattern: `\s` together with U+200B (zero-width space). */
  predicate IsLeadingBlank(c: char) {
    IsJsSpace(c) || c == '\U{200B}'
  }

  /**
   * trimLeadingWhitespace: exactly the leading run of blanks goes, and the
   * text from the first other character on is kept; the empty text stays empty.
   */
  function TrimLeadingWhitespace(text: string): (r: string)
    ensures |r| <= |text| && r == text[|text| - |r|..]
    ensures forall i :: 0 <= i < |text| - |r| ==> IsLeadingBlank(text[i])
    ensures r == "" || !IsLeadingBlank(r[0])
  {
    TrimStartBy(text, IsLeadingBlank)
  }

  /** A text with a non-blank first character is kept whole, and trimming again changes nothing. */
  lemma TrimLeadingKeeps(text: string)
    ensures text != "" && !IsLeadingBlank(text[0]) ==> TrimLeadingWhitespace(text) == text
    ensures TrimLeadingWhitespace(TrimLeadingWhitespace(text)) == TrimLeadingWhitespace(text)
  {
  }

  datatype Card =
    | Welcome
    | UserCard(id: string, text: string, time: string)
    | AssistantCard(agent: string, raw: string, time: string, waiting: bool)
    | ToolCallCard(name: string, args: string)
    | ToolResultCard(text: string)
    | ActionCard(style: string, agent: string, text: string)
    | ErrorCard(agent: string, error: string)
    | CancelCard(text: string)
    | SwitchCard(agent: string, description: string)
    | ResetCard(modeName: string)

  datatype Transcript = Transcript(cards: seq<Card>, open: Option<nat>, toolFlag: bool)

  /** The open card is an assistant card of the transcript; only the first card can be the welcome. */
  predicate Valid(t: Transcript) {
    (t.open.Some? ==> t.open.value < |t.cards| && t.cards[t.open.value].AssistantCard?)
    && forall i :: 0 < i < |t.cards| ==> !t.cards[i].Welcome?
  }

  /** Appending cards other than the welcome keeps a transcript valid. */
  lemma AppendValid(t: Transcript, more: seq<Card>)
    requires Valid(t)
    requires forall i :: 0 <= i < |more| ==> !more[i].Welcome?
    ensures Valid(t.(cards := t.cards + more))
  {
    var cs := t.cards + more;
    forall i | 0 < i < |cs| ensures !cs[i].Welcome? {
      if i >= |t.cards| { assert cs[i] == more[i - |t.cards|]; }
    }
  }

  /** The tool-call flag, no open card, or a named event for another agent than the open card's. */
  predicate NeedNewCard(t: Transcript, agent: string)
    requires Valid(t)
  {
    t.toolFlag || t.open.None? || (agent != "" && t.cards[t.open.value].agent != agent)
  }

  /** createAssistantMessage when a new card is needed: it is appended, opened and the flag cleared. */
  function Opened(t: Transcript, agent: string, now: string): (u: Transcript)
    requires Valid(t)
    ensures Valid(u) && u.open.Some? && !u.toolFlag
    ensures NeedNewCard(t, agent) ==>
      u.cards == t.cards + [AssistantCard(agent, "", now, true)] && u.open == Some(|t.cards|)
    ensures !NeedNewCard(t, agent) ==> u == t
  {
    if NeedNewCard(t, agent) then
      AppendValid(t, [AssistantCard(agent, "", now, true)]);
      Transcript(t.cards + [AssistantCard(agent, "", now, true)], Some(|t.cards|), false)
    else t
  }

  /** The text the open card displays. */
  function OpenText(t: Transcript): string
    requires Valid(t) && t.open.Some?
  {
    t.cards[t.open.value].raw
  }

  /** Sets the open card's text and removes its streaming indicator. */
  function SetOpen(t: Transcript, raw: string): (u: Transcript)
    requires Valid(t) && t.open.Some?
    ensures Valid(u) && u.open == t.open && u.toolFlag == t.toolFlag && |u.cards| == |t.cards|
    ensures OpenText(u) == raw && !u.cards[u.open.value].waiting
    ensures u.cards[u.open.value].agent == t.cards[t.open.value].agent
    ensures forall k :: 0 <= k < |t.cards| && k != t.open.value ==> u.cards[k] == t.cards[k]
  {
    var i := t.open.value;
    t.(cards := t.cards[i := t.cards[i].(raw := raw, waiting := false)])
  }

  /** handleStreamChunk: a chunk is trimmed only while the card's text is empty. */
  function StreamChunk(t: Transcript, agent: string, content: string, now: string): Transcript
    requires Valid(t)
  {
    var u := Opened(t, agent, now);
    var raw := OpenText(u);
    SetOpen(u, raw + (if raw == "" then TrimLeadingWhitespace(content) else content))
  }

  /** handleMessage: a non-empty message replaces the card's text with its trimmed content. */
  function MessageText(t: Transcript, agent: string, content: string, now: string): Transcript
    requires Valid(t)
  {
    if content == "" then t
    else SetOpen(Opened(t, agent, now), TrimLeadingWhitespace(content))
  }

  /**
   * The new-card rule of stream_chunk: a card is appended exactly when
   * NeedNewCard holds; it is then the open card and carries the event's
   * agent. Either way the flag ends cleared and no other card changes.
   */
  lemma StreamChunkCard(t: Transcript, agent: string, content: string, now: string)
    requires Valid(t)
    ensures var u := StreamChunk(t, agent, content, now);
      Valid(u) && u.open.Some? && !u.toolFlag
      && (NeedNewCard(t, agent) <==> |u.cards| == |t.cards| + 1)
      && (|u.cards| == |t.cards| || |u.cards| == |t.cards| + 1)
    ensures var u := StreamChunk(t, agent, content, now);
      NeedNewCard(t, agent) ==>
        u.open == Some(|t.cards|) && u.cards[|t.cards|].agent == agent && u.cards[..|t.cards|] == t.cards
    ensures var u := StreamChunk(t, agent, content, now);
      !NeedNewCard(t, agent) ==>
        u.open == t.open && forall k :: 0 <= k < |t.cards| && k != t.open.value ==> u.cards[k] == t.cards[k]
  {
    var u := Opened(t, agent, now);
    if NeedNewCard(t, agent) {
      var w := StreamChunk(t, agent, content, now);
      assert w.cards[..|t.cards|] == u.cards[..|t.cards|];
      assert u.cards[..|t.cards|] == t.cards;
    }
  }

  /**
   * The text rule of stream_chunk: into an empty card the chunk goes
   * trimmed, otherwise it is appended verbatim.
   */
  lemma StreamChunkText(t: Transcript, agent: string, content: string, now: string)
    requires Valid(t)
    ensures var u := StreamChunk(t, agent, content, now);
      OpenText(u) == if NeedNewCard(t, agent) || OpenText(t) == "" then TrimLeadingWhitespace(content)
                     else OpenText(t) + content
  {
  }

  /**
   * handleMessage's rule: the same new-card rule as stream_chunk, and the
   * open card then shows the trimmed message whatever it showed before; an
   * empty message changes nothing.
   */
  lemma MessageReplaces(t: Transcript, agent: string, content: string, now: string)
    requires Valid(t)
    ensures content == "" ==> MessageText(t, agent, content, now) == t
    ensures content != "" ==>
      var u := MessageText(t, agent, content, now);
      Valid(u) && u.open.Some? && !u.toolFlag && OpenText(u) == TrimLeadingWhitespace(content)
      && (NeedNewCard(t, agent) <==> |u.cards| == |t.cards| + 1)
      && (!NeedNewCard(t, agent) ==> u.open == t.open && |u.cards| == |t.cards|)
  {
  }

  /** The chunks of one card in arrival order, applied one after another. */
  function Streamed(t: Transcript, agent: string, chunks: seq<string>, now: string): (u: Transcript)
    requires Valid(t)
    ensures Valid(u)
    decreases |chunks|
  {
    if |chunks| == 0 then t
    else
      var v := Streamed(t, agent, chunks[..|chunks| - 1], now);
      StreamChunkCard(v, agent, chunks[|chunks| - 1], now);
      StreamChunk(v, agent, chunks[|chunks| - 1], now)
  }

  /** The chunks run together. */
  function Concat(chunks: seq<string>): string {
    if |chunks| == 0 then "" else Concat(chunks[..|chunks| - 1]) + chunks[|chunks| - 1]
  }

  /**
   * Live streaming: chunks of one agent that arrive when a new card is due
   * make exactly one new card, which shows their concatenation with its
   * leading blanks removed (`" hi"` then `" there"` shows `"hi there"`).
   */
  lemma {:induction false} StreamedText(t: Transcript, agent: string, chunks: seq<string>, now: string)
    requires Valid(t) && NeedNewCard(t, agent) && |chunks| > 0
    ensures var u := Streamed(t, agent, chunks, now);
      |u.cards| == |t.cards| + 1 && u.cards[..|t.cards|] == t.cards
      && u.open == Some(|t.cards|) && !u.toolFlag
      && u.cards[|t.cards|] == AssistantCard(agent, TrimLeadingWhitespace(Concat(chunks)), now, false)
    decreases |chunks|
  {
    var init := chunks[..|chunks| - 1];
    var last := chunks[|chunks| - 1];
    var v := Streamed(t, agent, init, now);
    StreamChunkCard(v, agent, last, now);
    StreamChunkText(v, agent, last, now);
    if |init| == 0 {
      assert v == t;
      assert Concat(chunks) == Concat(init) + last;
      assert Concat(init) == "";
      assert Concat(chunks) == last;
    } else {
      StreamedText(t, agent, init, now);
      assert !NeedNewCard(v, agent);
      var u := Streamed(t, agent, chunks, now);
      assert u.cards[..|t.cards|] == t.cards by {
        forall k | 0 <= k < |t.cards| ensures u.cards[k] == t.cards[k] {
          assert u.cards[k] == v.cards[k];
          assert v.cards[..|t.cards|][k] == v.cards[k];
        }
      }
      TrimStartAppend(Concat(init), last, IsLeadingBlank);
      assert Concat(chunks) == Concat(init) + last;
    }
  }

  /** One concrete stream: two chunks with leading spaces. */
  lemma StreamedHiThere(now: string)
    ensures Streamed(Transcript([], None, false), "", [" hi", " there"], now).cards
            == [AssistantCard("", "hi there", now, false)]
  {
    var chunks := [" hi", " there"];
    StreamedText(Transcript([], None, false), "", chunks, now);
    assert Concat(chunks) == Concat(chunks[..1]) + " there";
    assert Concat(chunks[..1]) == Concat([]) + " hi";
    assert Concat([]) + " hi" == " hi";
    Literals();
    TrimOneSpace("hi there");
    var u := Streamed(Transcript([], None, false), "", chunks, now);
    assert u.cards == [u.cards[0]];
  }

  lemma Literals()
    ensures " hi" + " there" == " " + "hi there"
  {
    AppendAssoc(" ", "hi", " there");
    assert "hi" + " there" == "hi there";
    assert " hi" == " " + "hi";
  }

  lemma TrimOneSpace(s: string)
    requires s != "" && s[0] == 'h'
    ensures TrimLeadingWhitespace(" " + s) == s
  {
    assert !IsLeadingBlank(s[0]);
    assert (" " + s)[1..] == s;
  }

  /** The args text of a tool-call card while its arguments are still streaming. */
  const PreparingArgs := "参数准备中..."

  datatype CallInfo = CallInfo(name: string, arguments: string)

  /** handleToolCallsPreparing: a non-empty list appends a card for the first call and raises the flag. */
  function ToolsPreparing(t: Transcript, calls: seq<CallInfo>): (u: Transcript)
    requires Valid(t)
    ensures Valid(u)
  {
    if |calls| == 0 then t
    else
      AppendValid(t, [ToolCallCard(calls[0].name, PreparingArgs)]);
      Transcript(t.cards + [ToolCallCard(calls[0].name, PreparingArgs)], t.open, true)
  }

  /**
   * After tool_calls_preparing with a non-empty list the next text opens
   * a new card, even for the agent of the open card.
   */
  lemma PreparingForcesNewCard(t: Transcript, calls: seq<CallInfo>, agent: string)
    requires Valid(t) && |calls| > 0
    ensures NeedNewCard(ToolsPreparing(t, calls), agent)
    ensures ToolsPreparing(t, calls).cards == t.cards + [ToolCallCard(calls[0].name, PreparingArgs)]
    ensures ToolsPreparing(t, calls).open == t.open
  {
  }

  /** The last tool-call card, -1 when there is none. */
  function LastToolCall(cards: seq<Card>): (k: int)
    ensures -1 <= k < |cards|
    ensures k >= 0 ==> cards[k].ToolCallCard?
    ensures forall j :: k < j < |cards| ==> !cards[j].ToolCallCard?
  {
    if |cards| == 0 then -1
    else if cards[|cards| - 1].ToolCallCard? then |cards| - 1
    else LastToolCall(cards[..|cards| - 1])
  }

  /** JSON text pretty-printed when it parses, kept as it is otherwise. */
  function Pretty(json: Json, text: string): string {
    match json(text)
    case Some(p) => p
    case None => text
  }

  /** handleToolCalls: the last tool-call card shows the first call's arguments, when it has any. */
  function ToolCallsArrived(t: Transcript, calls: seq<CallInfo>, json: Json): (u: Transcript)
    requires Valid(t)
    ensures Valid(u)
  {
    var k := LastToolCall(t.cards);
    if |calls| == 0 || k < 0 || calls[0].arguments == "" then t
    else t.(cards := t.cards[k := t.cards[k].(args := Pretty(json, calls[0].arguments))])
  }

  /**
   * tool_calls rewrites only the last tool-call card, and with no
   * tool-call card (or no calls) nothing changes.
   */
  lemma ToolCallsLastOnly(t: Transcript, calls: seq<CallInfo>, json: Json)
    requires Valid(t)
    ensures var u := ToolCallsArrived(t, calls, json);
      |u.cards| == |t.cards| && u.open == t.open && u.toolFlag == t.toolFlag
      && forall j :: 0 <= j < |t.cards| && j != LastToolCall(t.cards) ==> u.cards[j] == t.cards[j]
    ensures (forall j :: 0 <= j < |t.cards| ==> !t.cards[j].ToolCallCard?) || |calls| == 0 ==>
      ToolCallsArrived(t, calls, json) == t
    ensures |calls| > 0 && LastToolCall(t.cards) >= 0 && calls[0].arguments != "" ==>
      var k := LastToolCall(t.cards);
      ToolCallsArrived(t, calls, json).cards[k] == ToolCallCard(t.cards[k].name, Pretty(json, calls[0].arguments))
  {
  }

  const MaxToolResult := 2048

  /** A text over 2048 characters is cut to its first 2048 followed by a new line and `...`. */
  function Truncate(s: string): (r: string)
    ensures |s| <= MaxToolResult ==> r == s
    ensures |s| > MaxToolResult ==>
      |r| == MaxToolResult + 4 && r[..MaxToolResult] == s[..MaxToolResult] && r[MaxToolResult..] == "\n..."
  {
    if |s| > MaxToolResult then s[..MaxToolResult] + "\n..." else s
  }

  /** The text of a tool-result card: pretty JSON or the raw text, truncated either way. */
  function ToolResultText(content: string, json: Json): string {
    Truncate(Pretty(json, content))
  }

  /** handleToolResult (tool_result and tool_result_chunk): one result card is appended. */
  function ToolResultArrived(t: Transcript, content: string, json: Json): (u: Transcript)
    requires Valid(t)
    ensures Valid(u)
    ensures u.cards == t.cards + [ToolResultCard(ToolResultText(content, json))]
    ensures u.open == t.open && u.toolFlag == t.toolFlag
  {
    AppendValid(t, [ToolResultCard(ToolResultText(content, json))]);
    t.(cards := t.cards + [ToolResultCard(ToolResultText(content, json))])
  }

  /** The styling of a live action card: transfer and exit have their own, anything else none. */
  function LiveActionStyle(actionType: string): string {
    if actionType == "transfer" then "transfer" else if actionType == "exit" then "exit" else ""
  }

  /** The action card's text: the content, or the action type when there is none. */
  function ActionText(content: string, actionType: string): string {
    if content != "" then content else actionType
  }

  /** handleAction: an action card is appended; the open card and the flag stay. */
  function ActionArrived(t: Transcript, agent: string, actionType: string, content: string): (u: Transcript)
    requires Valid(t)
    ensures Valid(u) && u.open == t.open && u.toolFlag == t.toolFlag
    ensures u.cards == t.cards + [ActionCard(LiveActionStyle(actionType), agent, ActionText(content, actionType))]
  {
    AppendValid(t, [ActionCard(LiveActionStyle(actionType), agent, ActionText(content, actionType))]);
    t.(cards := t.cards + [ActionCard(LiveActionStyle(actionType), agent, ActionText(content, actionType))])
  }

  /** handleError: an error card is appended; the open card and the flag stay. */
  function ErrorArrived(t: Transcript, agent: string, error: string): (u: Transcript)
    requires Valid(t)
    ensures Valid(u) && u.open == t.open && u.toolFlag == t.toolFlag
    ensures u.cards == t.cards + [ErrorCard(agent, error)]
  {
    AppendValid(t, [ErrorCard(agent, error)]);
    t.(cards := t.cards + [ErrorCard(agent, error)])
  }

  const CancelledText := "任务已取消"

  /** handleCancelled: the open card and the flag are cleared and a cancel card is appended. */
  function CancelArrived(t: Transcript, message: string): (u: Transcript)
    requires Valid(t)
    ensures Valid(u) && u.open.None? && !u.toolFlag
    ensures u.cards == t.cards + [CancelCard(if message != "" then message else CancelledText)]
  {
    AppendValid(t, [CancelCard(if message != "" then message else CancelledText)]);
    Transcript(t.cards + [CancelCard(if message != "" then message else CancelledText)], None, false)
  }

  /** processing_end: the open card and the flag are cleared, the cards stay. */
  function Ended(t: Transcript): (u: Transcript)
    requires Valid(t)
    ensures Valid(u) && u.open.None? && !u.toolFlag && u.cards == t.cards
  {
    Transcript(t.cards, None, false)
  }

  /** After processing_end or a cancel, the next text always opens a new card. */
  lemma EndedForcesNewCard(t: Transcript, message: string, agent: string)
    requires Valid(t)
    ensures NeedNewCard(Ended(t), agent) && NeedNewCard(CancelArrived(t, message), agent)
  {
  }
}
