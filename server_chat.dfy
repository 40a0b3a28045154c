/**
 * server/handler/chat.go: one chat request over the WebSocket. It covers
 * the defaults of a request, the runner cache, the prompt built from the
 * session's history, the socket encoding of an event, and how the event
 * loop ends.
 *
 * The history is given as the (agent name, text) pairs the handler reads
 * through GetMessages and GetTextContent, with the summary and its
 * summarized count (GetSummary); a runner is named by what it was created
 * for. The agent runtime, the request context and its cancellation, the
 * logging and the saving of the history file are not modelled; an
 * iteration of the event loop is given as its outcome.
 */
module ServerChat {
  import opened GoStrings
  import FkEvent
  import FkHistory

  // ---------------------------------------------------------------------
  // Request defaults

  function SessionOf(sessionId: string): (s: string)
    ensures s != "" && (sessionId != "" ==> s == sessionId)
  {
    if sessionId == "" then "default" else sessionId
  }

  function ModeOf(mode: string): (m: string)
    ensures m != "" && (mode != "" ==> m == mode)
  {
    if mode == "" then "supervisor" else mode
  }

  // ---------------------------------------------------------------------
  // The runner cache

  datatype Runner = SupervisorRunner | LoopRunner | CustomRunner | DeepRunner | AgentRunner(agent: string)

  /** The runner a mode calls for; unknown modes get the supervisor. */
  function ModeRunner(mode: string): Runner {
    if mode == "roundtable" then LoopRunner
    else if mode == "custom" then CustomRunner
    else if mode == "deep" then DeepRunner
    else SupervisorRunner
  }

  function AgentKey(name: string): string {
    "agent_" + name
  }

  datatype Cached = Cached(runner: Option<Runner>, cache: map<string, Runner>)

  /** A cache lookup: the cached runner, else the one `made` (if any), which is then cached. */
  function CacheGet(cache: map<string, Runner>, key: string, made: Option<Runner>): Cached {
    if key in cache then Cached(Some(cache[key]), cache)
    else if made.Some? then Cached(made, cache[key := made.value])
    else Cached(None, cache)
  }

  /** A lookup that found or made a runner gives the same runner again, and changes nothing more. */
  lemma CacheGetIdempotent(cache: map<string, Runner>, key: string, made: Option<Runner>, again: Option<Runner>)
    ensures var first := CacheGet(cache, key, made);
            first.runner.Some? ==> CacheGet(first.cache, key, again) == first
    ensures key !in cache && made.None? ==> CacheGet(cache, key, made) == Cached(None, cache)
    ensures forall k | k in cache :: k in CacheGet(cache, key, made).cache
                                     && CacheGet(cache, key, made).cache[k] == cache[k]
  {
  }

  class RunnerCache {
    var cache: map<string, Runner>

    constructor ()
      ensures cache == map[]
    {
      cache := map[];
    }

    /** getOrCreateRunner */
    method GetOrCreateRunner(mode: string) returns (r: Runner)
      modifies this
      ensures Cached(Some(r), cache) == CacheGet(old(cache), mode, Some(ModeRunner(mode)))
    {
      if mode in cache {
        return cache[mode];
      }
      if mode == "roundtable" {
        r := LoopRunner;
      } else if mode == "custom" {
        r := CustomRunner;
      } else if mode == "deep" {
        r := DeepRunner;
      } else {
        r := SupervisorRunner;
      }
      cache := cache[mode := r];
    }

    /** getOrCreateAgentRunner: `known` is the set of registered agent names. */
    method GetOrCreateAgentRunner(agentName: string, known: set<string>) returns (r: Option<Runner>)
      modifies this
      ensures Cached(r, cache)
              == CacheGet(old(cache), AgentKey(agentName),
                          if agentName in known then Some(AgentRunner(agentName)) else None)
    {
      var key := "agent_" + agentName;
      if key in cache {
        return Some(cache[key]);
      }
      if agentName !in known {
        return None;
      }
      r := Some(AgentRunner(agentName));
      cache := cache[key := AgentRunner(agentName)];
    }

    method ClearRunnerCache()
      modifies this
      ensures cache == map[]
    {
      cache := map[];
    }
  }

  /** Requests naming an agent use that agent's runner, found or made; others use the mode's. */
  function SelectedRunner(cache: map<string, Runner>, agentName: string, mode: string, known: set<string>): (c: Cached)
    ensures agentName == "" ==> c.runner.Some?
    ensures agentName == "" && ModeOf(mode) in cache ==> c == Cached(Some(cache[ModeOf(mode)]), cache)
    ensures agentName == "" && ModeOf(mode) !in cache ==>
              c == Cached(Some(ModeRunner(ModeOf(mode))), cache[ModeOf(mode) := ModeRunner(ModeOf(mode))])
    ensures agentName != "" && AgentKey(agentName) in cache ==> c == Cached(Some(cache[AgentKey(agentName)]), cache)
    ensures agentName != "" && AgentKey(agentName) !in cache ==>
              (c.runner.Some? <==> agentName in known) && (c.runner.Some? ==> c.runner.value == AgentRunner(agentName))
    ensures agentName != "" && AgentKey(agentName) !in cache ==>
              c.cache == if agentName in known then cache[AgentKey(agentName) := AgentRunner(agentName)] else cache
  {
    if agentName != "" then
      CacheGet(cache, AgentKey(agentName), if agentName in known then Some(AgentRunner(agentName)) else None)
    else CacheGet(cache, ModeOf(mode), Some(ModeRunner(ModeOf(mode))))
  }

  /** Mode and agent runners share one key space: a mode spelt "agent_" + name answers for that agent. */
  lemma ModeKeyShadowsAgent(cache: map<string, Runner>, name: string, known: set<string>)
    requires name != "" && AgentKey(name) !in cache
    ensures var afterMode := CacheGet(cache, AgentKey(name), Some(ModeRunner(AgentKey(name))));
            SelectedRunner(afterMode.cache, name, "", known).runner == Some(SupervisorRunner)
  {
    assert AgentKey(name)[0] == 'a';
    assert "roundtable"[0] == 'r' && "custom"[0] == 'c' && "deep"[0] == 'd';
  }

  // ---------------------------------------------------------------------
  // The prompt

  /** A history message as the prompt reads it: its agent name and text. */
  datatype Spoken = Spoken(agentName: string, text: string)

  datatype PromptRole = SystemRole | UserRole

  datatype Prompt = Prompt(role: PromptRole, content: string)

  function Line(m: Spoken): string {
    m.agentName + ": " + m.text + "\n"
  }

  /** Each message as one "name: text" line, in order. */
  function Transcript(ms: seq<Spoken>): string {
    if |ms| == 0 then "" else Transcript(ms[..|ms| - 1]) + Line(ms[|ms| - 1])
  }

  const SummaryHeading := "## 对话历史摘要\n"
  const RecentHeading := "\n\n## 最近的对话记录\n"
  const HistoryOpen := "以下是之前的对话历史:\n---\n"
  const HistoryClose := "\n---\n"

  /** The text of the history block, if there is one: the summary and the rest, or every message. */
  function HistoryText(ms: seq<Spoken>, summary: string, summarized: int): Option<string> {
    if summary != "" && summarized > 0 then
      Some(SummaryHeading + summary + (if summarized < |ms| then RecentHeading + Transcript(ms[summarized..]) else ""))
    else if |ms| > 0 then Some(Transcript(ms))
    else None
  }

  /** buildInputMessages */
  function InputMessages(ms: seq<Spoken>, summary: string, summarized: int, input: string): (r: seq<Prompt>)
    ensures 1 <= |r| <= 2 && r[|r| - 1] == Prompt(UserRole, input)
    ensures |r| == 2 <==> (summary != "" && summarized > 0) || |ms| > 0
    ensures |r| == 2 ==> r[0].role == SystemRole
    ensures summary != "" && summarized > 0 ==>
              r[0] == Prompt(SystemRole, HistoryOpen + SummaryHeading + summary
                                         + (if summarized < |ms| then RecentHeading + Transcript(ms[summarized..]) else "")
                                         + HistoryClose)
    ensures !(summary != "" && summarized > 0) && |ms| > 0 ==>
              r[0] == Prompt(SystemRole, HistoryOpen + Transcript(ms) + HistoryClose)
  {
    var h := HistoryText(ms, summary, summarized);
    (if h.Some? then [Prompt(SystemRole, HistoryOpen + h.value + HistoryClose)] else []) + [Prompt(UserRole, input)]
  }

  lemma {:induction false} TranscriptAppend(a: seq<Spoken>, b: seq<Spoken>)
    ensures Transcript(a + b) == Transcript(a) + Transcript(b)
    decreases |b|
  {
    if |b| == 0 {
      assert a + b == a;
    } else {
      var init := b[..|b| - 1];
      var last := Line(b[|b| - 1]);
      assert (a + b)[..|a + b| - 1] == a + init;
      assert (a + b)[|a + b| - 1] == b[|b| - 1];
      TranscriptAppend(a, init);
      calc {
        Transcript(a + b);
        Transcript(a + init) + last;
        (Transcript(a) + Transcript(init)) + last;
        Transcript(a) + (Transcript(init) + last);
      }
    }
  }

  /**
   * The summary stands for the first `summarized` messages: the full
   * transcript is theirs followed by the part the prompt still lists.
   */
  lemma SummaryReplacesPrefix(ms: seq<Spoken>, summary: string, summarized: int)
    requires summary != "" && 0 < summarized < |ms|
    ensures Transcript(ms) == Transcript(ms[..summarized]) + Transcript(ms[summarized..])
    ensures HistoryText(ms, summary, summarized) == Some(SummaryHeading + summary + (RecentHeading + Transcript(ms[summarized..])))
  {
    assert ms == ms[..summarized] + ms[summarized..];
    TranscriptAppend(ms[..summarized], ms[summarized..]);
  }

  /** The transcript loop: lines for ms[from..]. */
  method WriteTranscript(ms: seq<Spoken>, from: nat) returns (text: string)
    requires from <= |ms|
    ensures text == Transcript(ms[from..])
  {
    text := "";
    for i := from to |ms|
      invariant text == Transcript(ms[from..i])
    {
      assert ms[from..i + 1][..i - from] == ms[from..i];
      text := text + Line(ms[i]);
    }
    assert ms[from..|ms|] == ms[from..];
  }

  method BuildInputMessages(ms: seq<Spoken>, summary: string, summarized: int, input: string)
    returns (r: seq<Prompt>)
    ensures r == InputMessages(ms, summary, summarized, input)
  {
    r := [];
    if summary != "" && summarized > 0 {
      var history := SummaryHeading + summary;
      if summarized < |ms| {
        var recent := WriteTranscript(ms, summarized);
        history := history + (RecentHeading + recent);
      } else {
        history := history + "";
      }
      r := r + [Prompt(SystemRole, HistoryOpen + history + HistoryClose)];
    } else if |ms| > 0 {
      var history := WriteTranscript(ms, 0);
      assert ms[0..] == ms;
      r := r + [Prompt(SystemRole, HistoryOpen + history + HistoryClose)];
    }
    r := r + [Prompt(UserRole, input)];
  }

  /** The prompt's view of the recorder's messages. */
  function Spokens(ms: seq<FkHistory.AgentMessage>): seq<Spoken> {
    seq(|ms|, i requires 0 <= i < |ms| => Spoken(ms[i].agentName, ms[i].content))
  }

  /**
   * The prompt is built before the input is recorded: its history is
   * exactly the messages recorded before this request, and the input
   * appears once, as the closing user message.
   */
  lemma PromptPrecedesRecording(r: FkHistory.Recorder, input: string, now: int, summary: string, summarized: int)
    ensures var after := FkHistory.UserInput(r, input, now);
            && after.messages[..|r.messages|] == r.messages
            && after.messages[|after.messages| - 1] == FkHistory.UserMessage(input, now)
            && InputMessages(Spokens(r.messages), summary, summarized, input)
               == InputMessages(Spokens(after.messages[..|r.messages|]), summary, summarized, input)
  {
    var after := FkHistory.UserInput(r, input, now);
    assert after.messages[..|r.messages|] == FkHistory.Finalized(r, now)[..|r.messages|];
  }

  // ---------------------------------------------------------------------
  // The socket encoding of an event

  datatype WsValue = Text(text: string) | CallList(calls: seq<map<string, string>>)

  /** One tool call on the socket: its name, and its arguments when there are any. */
  function WsToolCall(tc: FkEvent.ToolCall): (m: map<string, string>)
    ensures "name" in m && m["name"] == tc.name
    ensures "arguments" in m <==> tc.arguments != ""
    ensures "arguments" in m ==> m["arguments"] == tc.arguments
    ensures m.Keys <= {"name", "arguments"}
  {
    if tc.arguments != "" then map["name" := tc.name, "arguments" := tc.arguments] else map["name" := tc.name]
  }

  function Optional(m: map<string, WsValue>, key: string, value: string): map<string, WsValue> {
    if value != "" then m[key := Text(value)] else m
  }

  /** convertEventForWS */
  function WsCalls(tcs: seq<FkEvent.ToolCall>): seq<map<string, string>> {
    seq(|tcs|, i requires 0 <= i < |tcs| => WsToolCall(tcs[i]))
  }

  function WsHead(e: FkEvent.Event): map<string, WsValue> {
    Optional(Optional(map["type" := Text(e.kind), "agent_name" := Text(e.agentName)], "run_path", e.runPath),
             "content", e.content)
  }

  function WsEvent(e: FkEvent.Event): map<string, WsValue> {
    var m := if |e.toolCalls| > 0 then WsHead(e)["tool_calls" := CallList(WsCalls(e.toolCalls))] else WsHead(e);
    Optional(Optional(m, "action_type", e.actionType), "error", e.error)
  }

  method ConvertEventForWS(e: FkEvent.Event) returns (result: map<string, WsValue>)
    ensures result == WsEvent(e)
  {
    result := map["type" := Text(e.kind), "agent_name" := Text(e.agentName)];
    if e.runPath != "" {
      result := result["run_path" := Text(e.runPath)];
    }
    if e.content != "" {
      result := result["content" := Text(e.content)];
    }
    assert result == WsHead(e);
    if |e.toolCalls| > 0 {
      var calls: seq<map<string, string>> := [];
      for i := 0 to |e.toolCalls|
        invariant calls == WsCalls(e.toolCalls[..i])
      {
        var tc := e.toolCalls[i];
        var call := map["name" := tc.name];
        if tc.arguments != "" {
          call := call["arguments" := tc.arguments];
        }
        assert call == WsToolCall(tc);
        calls := calls + [call];
      }
      assert e.toolCalls[..|e.toolCalls|] == e.toolCalls;
      result := result["tool_calls" := CallList(calls)];
    }
    if e.actionType != "" {
      result := result["action_type" := Text(e.actionType)];
    }
    if e.error != "" {
      result := result["error" := Text(e.error)];
    }
  }

  /** Reading a socket event back: an absent text field is empty. */
  function TextField(m: map<string, WsValue>, key: string): string {
    if key in m && m[key].Text? then m[key].text else ""
  }

  function CallsField(m: map<string, WsValue>): seq<FkEvent.ToolCall> {
    if "tool_calls" in m && m["tool_calls"].CallList? then
      var cs := m["tool_calls"].calls;
      seq(|cs|, i requires 0 <= i < |cs| =>
        FkEvent.ToolCall("", None, if "name" in cs[i] then cs[i]["name"] else "",
                         if "arguments" in cs[i] then cs[i]["arguments"] else ""))
    else []
  }

  function FromWs(m: map<string, WsValue>): FkEvent.Event {
    FkEvent.Event(TextField(m, "type"), TextField(m, "agent_name"), TextField(m, "run_path"), TextField(m, "content"),
                  CallsField(m), TextField(m, "action_type"), TextField(m, "error"))
  }

  /** What the socket keeps of a tool call: its name and arguments. */
  function Visible(e: FkEvent.Event): FkEvent.Event {
    e.(toolCalls := seq(|e.toolCalls|, i requires 0 <= i < |e.toolCalls| =>
                          FkEvent.ToolCall("", None, e.toolCalls[i].name, e.toolCalls[i].arguments)))
  }

  /** Dropping the empty fields loses nothing: the socket event reads back as the event, less call ids and indices. */
  lemma WsRoundTrip(e: FkEvent.Event)
    ensures FromWs(WsEvent(e)) == Visible(e)
  {
    var m := WsEvent(e);
    assert "type" in m && m["type"] == Text(e.kind);
    assert "agent_name" in m && m["agent_name"] == Text(e.agentName);
    assert TextField(m, "run_path") == e.runPath;
    assert TextField(m, "content") == e.content;
    assert TextField(m, "action_type") == e.actionType;
    assert TextField(m, "error") == e.error;
    assert CallsField(m) == Visible(e).toolCalls;
  }

  // ---------------------------------------------------------------------
  // The end of the event loop

  /** One turn of the event loop: the request was cancelled, or ProcessAgentEvent returned. */
  datatype LoopStep = Cancelled | Processed(err: Option<string>)

  datatype Frame = ErrorFrame(error: string) | ProcessingEnd

  datatype Ending = Ending(frames: seq<Frame>, saved: bool)

  /** An error that means the connection is gone. */
  predicate ConnectionLost(err: string) {
    Contains(err, "closed network connection") || Contains(err, "broken pipe") || Contains(err, "connection reset")
  }

  /**
   * The frames written after the events, and whether the history is saved:
   * a lost connection ends silently without saving; another error is
   * reported and ends the loop; a cancellation saves and ends without the
   * closing frame.
   */
  function LoopEnding(steps: seq<LoopStep>): Ending {
    if |steps| == 0 then Ending([ProcessingEnd], true)
    else match steps[0]
      case Cancelled => Ending([], true)
      case Processed(None) => LoopEnding(steps[1..])
      case Processed(Some(e)) => if ConnectionLost(e) then Ending([], false) else Ending([ErrorFrame(e), ProcessingEnd], true)
  }

  /** The loop of handleChatMessage after processing_start, over the outcomes of its iterations. */
  method EventLoop(steps: seq<LoopStep>) returns (frames: seq<Frame>, saved: bool)
    ensures Ending(frames, saved) == LoopEnding(steps)
  {
    var i := 0;
    while i < |steps|
      invariant 0 <= i <= |steps|
      invariant LoopEnding(steps[i..]) == LoopEnding(steps)
    {
      assert steps[i..][1..] == steps[i + 1..];
      match steps[i]
      case Cancelled =>
        return [], true;
      case Processed(err) =>
        if err.Some? {
          if Contains(err.value, "closed network connection") || Contains(err.value, "broken pipe")
             || Contains(err.value, "connection reset") {
            return [], false;
          }
          return [ErrorFrame(err.value), ProcessingEnd], true;
        }
      i := i + 1;
    }
    return [ProcessingEnd], true;
  }

  /** Which step ends the loop decides the ending; the history is unsaved only after a lost connection. */
  lemma {:induction false} EndingMeaning(steps: seq<LoopStep>)
    ensures !LoopEnding(steps).saved <==>
              exists k | 0 <= k < |steps| ::
                steps[k].Processed? && steps[k].err.Some? && ConnectionLost(steps[k].err.value)
                && forall j | 0 <= j < k :: steps[j] == Processed(None)
    ensures LoopEnding(steps).frames == [ProcessingEnd] <==> forall j | 0 <= j < |steps| :: steps[j] == Processed(None)
  {
    if |steps| > 0 {
      EndingMeaning(steps[1..]);
      if steps[0] == Processed(None) {
        forall k | 1 <= k < |steps| ensures steps[k] == steps[1..][k - 1] { }
        if exists k | 0 <= k < |steps[1..]| ::
             steps[1..][k].Processed? && steps[1..][k].err.Some? && ConnectionLost(steps[1..][k].err.value)
             && forall j | 0 <= j < k :: steps[1..][j] == Processed(None) {
          var k :| 0 <= k < |steps[1..]| &&
                   steps[1..][k].Processed? && steps[1..][k].err.Some? && ConnectionLost(steps[1..][k].err.value)
                   && forall j | 0 <= j < k :: steps[1..][j] == Processed(None);
          assert forall j | 0 <= j < k + 1 :: steps[j] == Processed(None) by {
            forall j | 0 <= j < k + 1 ensures steps[j] == Processed(None) {
              if j > 0 {
                assert steps[j] == steps[1..][j - 1];
              }
            }
          }
        }
        if exists k | 0 <= k < |steps| ::
             steps[k].Processed? && steps[k].err.Some? && ConnectionLost(steps[k].err.value)
             && forall j | 0 <= j < k :: steps[j] == Processed(None) {
          var k :| 0 <= k < |steps| &&
                   steps[k].Processed? && steps[k].err.Some? && ConnectionLost(steps[k].err.value)
                   && forall j | 0 <= j < k :: steps[j] == Processed(None);
          assert k > 0;
          assert forall j | 0 <= j < k - 1 :: steps[1..][j] == Processed(None) by {
            forall j | 0 <= j < k - 1 ensures steps[1..][j] == Processed(None) {
              assert steps[1..][j] == steps[j + 1];
            }
          }
        }
      } else {
        var k0 := 0;
        assert !(forall j | 0 <= j < |steps| :: steps[j] == Processed(None)) by {
          assert steps[k0] != Processed(None);
        }
      }
    }
  }
}
