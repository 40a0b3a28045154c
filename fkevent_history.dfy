/**
 * fkevent/history.go: the recorder that turns the event stream into a list
 * of agent messages (one per turn of an agent, plus the user's inputs).
 *
 * The recorder is a class whose fields are the Go struct's; the strings
 * builder is a string field. Its value is `State()`, and each method is
 * specified by a function on that value. The mutex is not modelled (every
 * method runs to completion); the clock is the parameter `now`; reading,
 * writing and JSON (de)serialisation of the history file are outcomes
 * given to the methods.
 */
module FkHistory {
  import opened GoStrings
  import FkEvent

  datatype ToolCallRecord = ToolCallRecord(name: string, arguments: string, result: string)

  datatype ActionRecord = ActionRecord(actionType: string, content: string)

  /** Times are instants on an abstract clock. */
  datatype AgentMessage = AgentMessage(agentName: string, content: string, runPath: string,
                                       startTime: int, endTime: int,
                                       toolCalls: seq<ToolCallRecord>, actions: seq<ActionRecord>)

  /** The recorder's fields as a value. */
  datatype Recorder = Recorder(messages: seq<AgentMessage>, builder: string, agent: string, runPath: string,
                               startTime: int, toolCalls: seq<ToolCallRecord>, pending: map<string, string>,
                               actions: seq<ActionRecord>)

  const UserName := "用户"

  const Fresh := Recorder([], "", "", "", 0, [], map[], [])

  // ---------------------------------------------------------------------
  // The specification on values

  /** The message the current turn would become, ending at `now`. */
  function InProgress(r: Recorder, now: int): AgentMessage {
    AgentMessage(r.agent, r.builder, r.runPath, r.startTime, now, r.toolCalls, r.actions)
  }

  /** finalizeCurrentMessage: the messages once the current turn is closed; a turn without text leaves none. */
  function Finalized(r: Recorder, now: int): (ms: seq<AgentMessage>)
    ensures |ms| == |r.messages| + (if r.agent != "" && r.builder != "" then 1 else 0)
    ensures ms[..|r.messages|] == r.messages
    ensures forall i | |r.messages| <= i < |ms| :: ms[i].content != "" && ms[i].agentName != ""
  {
    if r.agent != "" && r.builder != "" then r.messages + [InProgress(r, now)] else r.messages
  }

  /** A stream_chunk: a different agent closes the current turn and starts a fresh one; the text is appended. */
  function OnChunk(r: Recorder, e: FkEvent.Event, now: int): (r': Recorder)
    ensures e.agentName == r.agent ==> r' == r.(builder := r.builder + e.content)
    ensures e.agentName != r.agent ==>
              && r'.messages == Finalized(r, now) && r'.builder == e.content
              && r'.agent == e.agentName && r'.runPath == e.runPath && r'.startTime == now
              && r'.toolCalls == [] && r'.pending == map[] && r'.actions == []
  {
    var closed := if e.agentName != r.agent && r.agent != "" then r.(messages := Finalized(r, now)) else r;
    var started := if e.agentName != r.agent
                   then closed.(agent := e.agentName, runPath := e.runPath, startTime := now, builder := "",
                                toolCalls := [], pending := map[], actions := [])
                   else closed;
    started.(builder := started.builder + e.content)
  }

  /** tool_calls_preparing and tool_calls: remember each call's arguments under its name, later ones overwriting. */
  function Remember(pending: map<string, string>, tcs: seq<FkEvent.ToolCall>): map<string, string> {
    if |tcs| == 0 then pending
    else Remember(pending, tcs[..|tcs| - 1])[tcs[|tcs| - 1].name := tcs[|tcs| - 1].arguments]
  }

  /** A tool result completes the pending call `name`. */
  function TakeResult(r: Recorder, name: string, result: string): (r': Recorder)
    requires name in r.pending
    ensures |r'.pending| == |r.pending| - 1
  {
    r.(toolCalls := r.toolCalls + [ToolCallRecord(name, r.pending[name], result)], pending := r.pending - {name})
  }

  /**
   * RecordEvent: what an event may do to the recorder. A tool result takes
   * any one pending call (Go's map order is unspecified); the events of the
   * other kinds (message, error, ...) change nothing.
   */
  predicate Recorded(r: Recorder, e: FkEvent.Event, now: int, r': Recorder) {
    if e.kind == "stream_chunk" then r' == OnChunk(r, e, now)
    else if e.kind == "tool_calls_preparing" || e.kind == "tool_calls" then
      r' == r.(pending := Remember(r.pending, e.toolCalls))
    else if e.kind == "tool_result" || e.kind == "tool_result_chunk" then
      if r.pending == map[] then r' == r
      else exists name | name in r.pending :: r' == TakeResult(r, name, e.content)
    else if e.kind == "action" then r' == r.(actions := r.actions + [ActionRecord(e.actionType, e.content)])
    else r' == r
  }

  function UserMessage(input: string, now: int): AgentMessage {
    AgentMessage(UserName, input, "", now, now, [], [])
  }

  /** RecordUserInput: close the current turn and add the input; tool calls, pending calls and actions stay. */
  function UserInput(r: Recorder, input: string, now: int): Recorder {
    r.(messages := Finalized(r, now) + [UserMessage(input, now)], agent := "", builder := "")
  }

  /** FinalizeCurrent: close the current turn and reset it; the run path and start time stay. */
  function Closed(r: Recorder, now: int): Recorder {
    r.(messages := Finalized(r, now), agent := "", builder := "", toolCalls := [], pending := map[], actions := [])
  }

  function Cleared(r: Recorder): Recorder {
    r.(messages := [], builder := "", agent := "", runPath := "", toolCalls := [], pending := map[], actions := [])
  }

  /** What SaveToFile writes: the messages plus, when there is text, the turn in progress. */
  function Snapshot(r: Recorder, now: int): seq<AgentMessage> {
    if r.agent != "" && |r.builder| > 0 then r.messages + [InProgress(r, now)] else r.messages
  }

  /** Reading and decoding the history file. */
  datatype LoadOutcome = ReadFailed(readErr: string) | DecodeFailed(decodeErr: string) | Decoded(loaded: seq<AgentMessage>)

  function LoadError(o: LoadOutcome): (err: Option<string>)
    ensures err.None? <==> o.Decoded?
  {
    match o
    case ReadFailed(e) => Some("读取文件失败: " + e)
    case DecodeFailed(e) => Some("反序列化失败: " + e)
    case Decoded(_) => None
  }

  /** LoadFromFile: on success the loaded messages replace the history and the turn is reset. */
  function Loaded(r: Recorder, o: LoadOutcome): Recorder {
    if o.Decoded? then Cleared(r).(messages := o.loaded) else r
  }

  /** GetAgentMessages: one agent's messages, in order. */
  function ByAgent(ms: seq<AgentMessage>, name: string): seq<AgentMessage> {
    if |ms| == 0 then []
    else ByAgent(ms[..|ms| - 1], name) + (if ms[|ms| - 1].agentName == name then [ms[|ms| - 1]] else [])
  }

  // ---------------------------------------------------------------------
  // The recorder

  class HistoryRecorder {
    var messages: seq<AgentMessage>
    var builder: string
    var currentAgent: string
    var currentRunPath: string
    var currentStartTime: int
    var currentToolCalls: seq<ToolCallRecord>
    var pendingToolCalls: map<string, string>
    var currentActions: seq<ActionRecord>

    function State(): Recorder
      reads this
    {
      Recorder(messages, builder, currentAgent, currentRunPath, currentStartTime, currentToolCalls,
               pendingToolCalls, currentActions)
    }

    /** NewHistoryRecorder */
    constructor ()
      ensures State() == Fresh
    {
      messages, builder, currentAgent, currentRunPath := [], "", "", "";
      currentStartTime, currentToolCalls, pendingToolCalls, currentActions := 0, [], map[], [];
    }

    /** finalizeCurrentMessage */
    method FinalizeMessage(now: int)
      modifies this
      ensures State() == old(State()).(messages := Finalized(old(State()), now))
    {
      if currentAgent == "" {
        return;
      }
      var content := builder;
      if content != "" {
        var msg := AgentMessage(currentAgent, content, currentRunPath, currentStartTime, now, [], []);
        if |currentToolCalls| > 0 {
          msg := msg.(toolCalls := currentToolCalls);
        }
        if |currentActions| > 0 {
          msg := msg.(actions := currentActions);
        }
        messages := messages + [msg];
      }
    }

    /** The stream_chunk branch of RecordEvent. */
    method RecordChunk(e: FkEvent.Event, now: int)
      modifies this
      ensures State() == OnChunk(old(State()), e, now)
    {
      if e.agentName != currentAgent && currentAgent != "" {
        FinalizeMessage(now);
      }
      if e.agentName != currentAgent {
        currentAgent, currentRunPath, currentStartTime, builder := e.agentName, e.runPath, now, "";
        currentToolCalls, pendingToolCalls, currentActions := [], map[], [];
      }
      builder := builder + e.content;
    }

    /** The tool_calls_preparing and tool_calls branch of RecordEvent. */
    method RememberCalls(tcs: seq<FkEvent.ToolCall>)
      modifies this
      ensures State() == old(State()).(pending := Remember(old(pendingToolCalls), tcs))
    {
      var pending := pendingToolCalls;
      for j := 0 to |tcs|
        invariant pending == Remember(pendingToolCalls, tcs[..j])
      {
        assert tcs[..j + 1][..j] == tcs[..j];
        pending := pending[tcs[j].name := tcs[j].arguments];
      }
      assert tcs[..|tcs|] == tcs;
      pendingToolCalls := pending;
    }

    /** The tool_result and tool_result_chunk branch of RecordEvent: the first pending call in map order. */
    method TakeToolResult(result: string)
      modifies this
      ensures old(pendingToolCalls) == map[] ==> State() == old(State())
      ensures old(pendingToolCalls) != map[] ==>
                exists name | name in old(pendingToolCalls) :: State() == TakeResult(old(State()), name, result)
    {
      if pendingToolCalls != map[] {
        var name :| name in pendingToolCalls;
        currentToolCalls := currentToolCalls + [ToolCallRecord(name, pendingToolCalls[name], result)];
        pendingToolCalls := pendingToolCalls - {name};
        assert State() == TakeResult(old(State()), name, result);
      }
    }

    method RecordEvent(e: FkEvent.Event, now: int)
      modifies this
      ensures Recorded(old(State()), e, now, State())
    {
      if e.kind == "stream_chunk" {
        RecordChunk(e, now);
      } else if e.kind == "tool_calls_preparing" || e.kind == "tool_calls" {
        RememberCalls(e.toolCalls);
      } else if e.kind == "tool_result" || e.kind == "tool_result_chunk" {
        TakeToolResult(e.content);
      } else if e.kind == "action" {
        currentActions := currentActions + [ActionRecord(e.actionType, e.content)];
      }
    }

    method RecordUserInput(input: string, now: int)
      modifies this
      ensures State() == UserInput(old(State()), input, now)
    {
      if currentAgent != "" {
        FinalizeMessage(now);
      }
      messages := messages + [AgentMessage(UserName, input, "", now, now, [], [])];
      currentAgent := "";
      builder := "";
    }

    method FinalizeCurrent(now: int)
      modifies this
      ensures State() == Closed(old(State()), now)
    {
      FinalizeMessage(now);
      currentAgent, builder := "", "";
      currentToolCalls, pendingToolCalls, currentActions := [], map[], [];
    }

    /** GetMessages: a copy of the history. */
    method GetMessages() returns (result: seq<AgentMessage>)
      ensures result == messages
    {
      result := messages;
    }

    method GetAgentMessages(agentName: string) returns (result: seq<AgentMessage>)
      ensures result == ByAgent(messages, agentName)
    {
      result := [];
      for i := 0 to |messages|
        invariant result == ByAgent(messages[..i], agentName)
      {
        assert messages[..i + 1][..i] == messages[..i];
        if messages[i].agentName == agentName {
          result := result + [messages[i]];
        }
      }
      assert messages[..|messages|] == messages;
    }

    /** GetCurrentMessage: the current agent and its text so far. */
    method GetCurrentMessage() returns (agent: string, content: string)
      ensures agent == currentAgent && content == builder
    {
      agent, content := currentAgent, builder;
    }

    method Clear()
      modifies this
      ensures State() == Cleared(old(State()))
    {
      messages := [];
      builder, currentAgent, currentRunPath := "", "", "";
      currentToolCalls, pendingToolCalls, currentActions := [], map[], [];
    }

    /** SaveToFile: the messages it hands to the file writer; the recorder is left as it was. */
    method SaveToFile(now: int) returns (written: seq<AgentMessage>)
      ensures written == Snapshot(State(), now)
    {
      if currentAgent != "" && |builder| > 0 {
        var temp := messages;
        var msg := AgentMessage(currentAgent, builder, currentRunPath, currentStartTime, now, [], []);
        if |currentToolCalls| > 0 {
          msg := msg.(toolCalls := currentToolCalls);
        }
        if |currentActions| > 0 {
          msg := msg.(actions := currentActions);
        }
        temp := temp + [msg];
        return temp;
      }
      return messages;
    }

    method LoadFromFile(outcome: LoadOutcome) returns (err: Option<string>)
      modifies this
      ensures State() == Loaded(old(State()), outcome)
      ensures err == LoadError(outcome)
    {
      match outcome
      case ReadFailed(e) =>
        return Some("读取文件失败: " + e);
      case DecodeFailed(e) =>
        return Some("反序列化失败: " + e);
      case Decoded(loaded) =>
        messages := loaded;
        currentAgent, builder, currentRunPath := "", "", "";
        currentToolCalls, pendingToolCalls, currentActions := [], map[], [];
        return None;
    }
  }

  // ---------------------------------------------------------------------
  // What the recorder promises

  /** A run of stream_chunk events. */
  function Chunks(r: Recorder, es: seq<FkEvent.Event>, now: int): Recorder {
    if |es| == 0 then r else OnChunk(Chunks(r, es[..|es| - 1], now), es[|es| - 1], now)
  }

  /** The texts of some events, concatenated in order. */
  function Texts(es: seq<FkEvent.Event>): string {
    if |es| == 0 then "" else Texts(es[..|es| - 1]) + es[|es| - 1].content
  }

  /** Chunks of the current agent only extend its text, in arrival order. */
  lemma {:induction false} SameAgentConcatenates(r: Recorder, es: seq<FkEvent.Event>, now: int)
    requires forall i | 0 <= i < |es| :: es[i].agentName == r.agent
    ensures Chunks(r, es, now) == r.(builder := r.builder + Texts(es))
  {
    if |es| > 0 {
      SameAgentConcatenates(r, es[..|es| - 1], now);
      assert r.builder + Texts(es[..|es| - 1]) + es[|es| - 1].content == r.builder + Texts(es);
    }
  }

  /** Chunks with no agent name, while no agent is current, never become a message. */
  lemma AnonymousChunksDropped(r: Recorder, es: seq<FkEvent.Event>, now: int, later: int)
    requires r.agent == "" && forall i | 0 <= i < |es| :: es[i].agentName == ""
    ensures Chunks(r, es, now).messages == r.messages
    ensures Finalized(Chunks(r, es, now), later) == r.messages
    ensures Snapshot(Chunks(r, es, now), later) == r.messages
  {
    SameAgentConcatenates(r, es, now);
  }

  /** A turn of one agent followed by another agent's chunk: the first turn becomes one message with all its text. */
  lemma TurnBecomesMessage(r: Recorder, es: seq<FkEvent.Event>, next: FkEvent.Event, now: int)
    requires r.agent != "" && next.agentName != r.agent
    requires forall i | 0 <= i < |es| :: es[i].agentName == r.agent
    requires r.builder + Texts(es) != ""
    ensures var r' := OnChunk(Chunks(r, es, now), next, now);
            && r'.messages == r.messages + [InProgress(r, now).(content := r.builder + Texts(es))]
            && r'.agent == next.agentName && r'.builder == next.content
  {
    SameAgentConcatenates(r, es, now);
  }

  /** A remembered call name holds the arguments of its last occurrence, or the earlier pending value. */
  lemma {:induction false} RememberLast(pending: map<string, string>, tcs: seq<FkEvent.ToolCall>, name: string)
    ensures name in Remember(pending, tcs) <==> name in pending || exists i | 0 <= i < |tcs| :: tcs[i].name == name
    ensures forall i | 0 <= i < |tcs| && tcs[i].name == name ::
              (forall j | i < j < |tcs| :: tcs[j].name != name) ==> Remember(pending, tcs)[name] == tcs[i].arguments
    ensures (forall i | 0 <= i < |tcs| :: tcs[i].name != name) && name in pending ==>
              Remember(pending, tcs)[name] == pending[name]
  {
    if |tcs| > 0 {
      var init := tcs[..|tcs| - 1];
      RememberLast(pending, init, name);
      forall i | 0 <= i < |init| ensures init[i] == tcs[i] { }
      if tcs[|tcs| - 1].name != name {
        if exists i | 0 <= i < |tcs| :: tcs[i].name == name {
          var i :| 0 <= i < |tcs| && tcs[i].name == name;
          assert init[i].name == name;
        }
      }
    }
  }

  lemma SingletonKeys(m: map<string, string>, x: string, y: string)
    requires |m| <= 1 && x in m && y in m
    ensures x == y
  {
    if x != y {
      assert {x, y} <= m.Keys;
      assert |{x, y}| == 2;
      SubsetCard({x, y}, m.Keys);
    }
  }

  lemma SubsetCard(a: set<string>, b: set<string>)
    requires a <= b
    ensures |a| <= |b|
  {
    assert b == a + (b - a);
  }

  /** With at most one pending call, an event has only one possible effect. */
  lemma RecordedDetermined(r: Recorder, e: FkEvent.Event, now: int, a: Recorder, b: Recorder)
    requires |r.pending| <= 1 && Recorded(r, e, now, a) && Recorded(r, e, now, b)
    ensures a == b
  {
    if (e.kind == "tool_result" || e.kind == "tool_result_chunk") && r.pending != map[] {
      var x :| x in r.pending && a == TakeResult(r, x, e.content);
      var y :| y in r.pending && b == TakeResult(r, y, e.content);
      SingletonKeys(r.pending, x, y);
    }
  }

  /** With two pending calls, which one a tool result completes is not determined. */
  lemma ResultUndetermined(r: Recorder, e: FkEvent.Event, now: int, x: string, y: string)
    requires e.kind == "tool_result" && x in r.pending && y in r.pending && x != y
    ensures Recorded(r, e, now, TakeResult(r, x, e.content)) && Recorded(r, e, now, TakeResult(r, y, e.content))
    ensures TakeResult(r, x, e.content) != TakeResult(r, y, e.content)
  {
    var n := |r.toolCalls|;
    assert TakeResult(r, x, e.content).toolCalls[n].name == x;
    assert TakeResult(r, y, e.content).toolCalls[n].name == y;
  }

  /** Plain messages and errors leave the recorder as it was. */
  lemma MessagesAndErrorsIgnored(r: Recorder, e: FkEvent.Event, now: int, r': Recorder)
    requires e.kind == "message" || e.kind == "error"
    ensures Recorded(r, e, now, r') <==> r' == r
  {
  }

  /** After a user input nothing is in progress: saving writes the closed turn and the input. */
  lemma UserInputEndsTurn(r: Recorder, input: string, now: int, later: int)
    ensures Snapshot(UserInput(r, input, now), later) == Finalized(r, now) + [UserMessage(input, now)]
    ensures UserInput(r, input, now).toolCalls == r.toolCalls && UserInput(r, input, now).pending == r.pending
  {
  }

  /** Saving adds the turn in progress exactly as finalizing would, without changing the recorder. */
  lemma SnapshotIsClosedHistory(r: Recorder, now: int)
    ensures Snapshot(r, now) == Finalized(r, now) == Closed(r, now).messages
  {
    assert |r.builder| > 0 <==> r.builder != "";
  }

  /** Closing twice is closing once. */
  lemma ClosedIdempotent(r: Recorder, t1: int, t2: int)
    ensures Closed(Closed(r, t1), t2) == Closed(r, t1)
  {
  }

  /** Clear forgets everything; loading replaces the history and forgets the turn, or changes nothing. */
  lemma ResetsForget(r: Recorder, o: LoadOutcome, now: int)
    ensures Snapshot(Cleared(r), now) == []
    ensures o.Decoded? ==> Snapshot(Loaded(r, o), now) == o.loaded && Loaded(r, o).pending == map[]
    ensures !o.Decoded? ==> Loaded(r, o) == r
  {
  }

  /** GetAgentMessages keeps exactly the named agent's messages, in order. */
  lemma {:induction false} ByAgentMeaning(ms: seq<AgentMessage>, name: string)
    ensures forall m | m in ByAgent(ms, name) :: m in ms && m.agentName == name
    ensures forall m | m in ms && m.agentName == name :: m in ByAgent(ms, name)
    ensures |ByAgent(ms, name)| <= |ms|
  {
    if |ms| > 0 {
      ByAgentMeaning(ms[..|ms| - 1], name);
      forall m | m in ms ensures m in ms[..|ms| - 1] || m == ms[|ms| - 1] {
        var i :| 0 <= i < |ms| && ms[i] == m;
        if i < |ms| - 1 {
          assert ms[..|ms| - 1][i] == m;
        }
      }
    }
  }

  lemma {:induction false} ByAgentAppend(a: seq<AgentMessage>, b: seq<AgentMessage>, name: string)
    ensures ByAgent(a + b, name) == ByAgent(a, name) + ByAgent(b, name)
    decreases |b|
  {
    if |b| == 0 {
      assert a + b == a;
    } else {
      assert (a + b)[..|a + b| - 1] == a + b[..|b| - 1];
      ByAgentAppend(a, b[..|b| - 1], name);
    }
  }
}
