/**
 * The browser client object, FKTeamsChat (web/js/app.js, with the methods
 * messages.js, history.js, navigation.js, agents.js and files.js add to
 * its prototype): the transcript with its open card and tool-call flag,
 * the processing flag, the routing agent, the input box and its two
 * suggestion lists, the question navigator, the notification stack, the
 * reconnect counter and the scroll flag.
 *
 * The class ChatClient holds these as fields and updates them in place;
 * each of its methods is proved against a function on the value
 * ClientState, and the properties are lemmas about those functions. The
 * WebSocket, timers, HTTP requests, the DOM and the clock are parameters:
 * a method returns the frame it would send, takes the directory listing
 * an HTTP request returned, and takes the time texts it would read.
 */
module WebClient {
  import opened GoStrings
  import opened JsStrings
  import opened WebCards
  import opened WebHistory
  import opened WebNav
  import opened WebAgents
  import opened WebFiles

  // ---------------------------------------------------------------------
  // Notifications (showNotification / removeNotification)

  /** A notification on screen: an identity, its text, its kind and its top offset in pixels. */
  datatype Notice = Notice(id: nat, text: string, kind: string, top: int)

  const MaxNotices := 3

  /** The offset of the i-th notification of the stack. */
  function StackTop(i: nat): int {
    20 + 70 * i
  }

  /**
   * showNotification: with three on screen the oldest is taken off the
   * list first; the new one goes last, below the ones that remain.
   */
  function Notified(ns: seq<Notice>, id: nat, text: string, kind: string): seq<Notice> {
    var kept := if |ns| >= MaxNotices then ns[1..] else ns;
    kept + [Notice(id, text, kind, StackTop(|kept|))]
  }

  /** The notices other than `id`, in order. */
  function Without(ns: seq<Notice>, id: nat): (r: seq<Notice>)
    ensures |r| <= |ns|
    ensures forall i :: 0 <= i < |r| ==> r[i].id != id && r[i] in ns
  {
    if |ns| == 0 then []
    else
      var init := ns[..|ns| - 1];
      assert ns == init + [ns[|ns| - 1]];
      Without(init, id) + (if ns[|ns| - 1].id != id then [ns[|ns| - 1]] else [])
  }

  /** The notices moved to the offsets of their places in the list. */
  function Restacked(ns: seq<Notice>): (r: seq<Notice>)
    ensures |r| == |ns|
    ensures forall i :: 0 <= i < |r| ==> r[i] == ns[i].(top := StackTop(i))
  {
    seq(|ns|, i requires 0 <= i < |ns| => ns[i].(top := StackTop(i)))
  }

  /** The end of removeNotification: the notice leaves the list and the survivors are re-stacked. */
  function Dismissed(ns: seq<Notice>, id: nat): seq<Notice> {
    Restacked(Without(ns, id))
  }

  predicate Stacked(ns: seq<Notice>) {
    forall i :: 0 <= i < |ns| ==> ns[i].top == StackTop(i)
  }

  /**
   * At most three notifications are active. A fourth evicts the oldest,
   * the others keep their order, and the new one comes last; below three
   * nothing is evicted and a stacked list stays stacked.
   */
  lemma NoticeCap(ns: seq<Notice>, id: nat, text: string, kind: string)
    requires |ns| <= MaxNotices
    ensures var r := Notified(ns, id, text, kind);
      |r| <= MaxNotices && r[|r| - 1].id == id && r[|r| - 1].text == text
      && (|ns| == MaxNotices ==> |r| == MaxNotices && r[..|r| - 1] == ns[1..])
      && (|ns| < MaxNotices ==> |r| == |ns| + 1 && r[..|r| - 1] == ns && (Stacked(ns) ==> Stacked(r)))
  {
    var r := Notified(ns, id, text, kind);
    if |ns| == MaxNotices {
      assert r[..|r| - 1] == ns[1..];
    } else {
      assert r[..|r| - 1] == ns;
    }
  }

  /**
   * Evicting from a full, stacked list places the new notice at the offset
   * of the previous newest one, which keeps its offset until the eviction's
   * removal re-stacks the survivors.
   */
  lemma EvictionOverlaps(ns: seq<Notice>, id: nat, text: string, kind: string)
    requires |ns| == MaxNotices && Stacked(ns)
    ensures var r := Notified(ns, id, text, kind);
      r[2].top == r[1].top == StackTop(2)
  {
  }

  lemma {:induction false} WithoutAbsent(ns: seq<Notice>, id: nat)
    requires forall i :: 0 <= i < |ns| ==> ns[i].id != id
    ensures Without(ns, id) == ns
    decreases |ns|
  {
    if |ns| > 0 {
      WithoutAbsent(ns[..|ns| - 1], id);
    }
  }

  /**
   * Removing the notice just shown, when nothing was evicted, gives back
   * the earlier notices re-stacked.
   */
  lemma DismissShown(ns: seq<Notice>, id: nat, text: string, kind: string)
    requires |ns| < MaxNotices && forall i :: 0 <= i < |ns| ==> ns[i].id != id
    ensures Dismissed(Notified(ns, id, text, kind), id) == Restacked(ns)
  {
    var r := Notified(ns, id, text, kind);
    assert r[..|r| - 1] == ns;
    WithoutAbsent(ns, id);
  }

  /** After any removal the stack is contiguous and the removed notice is gone. */
  lemma DismissedStacked(ns: seq<Notice>, id: nat)
    ensures Stacked(Dismissed(ns, id)) && forall n :: n in Dismissed(ns, id) ==> n.id != id
  {
    var d := Dismissed(ns, id);
    forall n | n in d ensures n.id != id {
      var i :| 0 <= i < |d| && d[i] == n;
      assert Without(ns, id)[i] in Without(ns, id);
    }
  }

  // ---------------------------------------------------------------------
  // Reconnecting (tryReconnect)

  const MaxReconnectAttempts := 5

  /** tryReconnect: the attempt count afterwards and the delay in ms of the retry it schedules, if any. */
  function Retry(attempts: nat): (nat, Option<nat>) {
    var delay: nat := 2000 * (attempts + 1);
    if attempts < MaxReconnectAttempts then (attempts + 1, Some(delay))
    else (attempts, None)
  }

  /** n closes in a row: the attempt count afterwards and the delays scheduled, in order. */
  function Retries(attempts: nat, n: nat): (nat, seq<nat>)
    decreases n
  {
    if n == 0 then (attempts, [])
    else
      var (a, d) := Retry(attempts);
      var (last, ds) := Retries(a, n - 1);
      (last, (if d.Some? then [d.value] else []) + ds)
  }

  function Min(a: nat, b: nat): nat {
    if a <= b then a else b
  }

  /**
   * Closes in a row from `attempts` schedule retries after 2000, 4000, …
   * ms, one per close, until five attempts have been made; after that no
   * retry is scheduled.
   */
  lemma {:induction false} RetriesSchedule(attempts: nat, n: nat)
    requires attempts <= MaxReconnectAttempts
    ensures var (last, ds) := Retries(attempts, n);
      last == Min(attempts + n, MaxReconnectAttempts)
      && |ds| == last - attempts
      && forall i :: 0 <= i < |ds| ==> ds[i] == 2000 * (attempts + i + 1)
    decreases n
  {
    if n > 0 {
      var (a, d) := Retry(attempts);
      RetriesSchedule(a, n - 1);
      var (last, ds) := Retries(a, n - 1);
      if attempts < MaxReconnectAttempts {
        var all := [d.value] + ds;
        assert Retries(attempts, n) == (last, all);
        forall i | 0 <= i < |all| ensures all[i] == 2000 * (attempts + i + 1) {
          if i > 0 { assert all[i] == ds[i - 1]; }
        }
      } else {
        assert Retries(attempts, n) == (last, ds);
      }
    }
  }

  // ---------------------------------------------------------------------
  // The client state

  /** A frame from the server as handleServerEvent reads it; a field the frame lacks is empty. */
  datatype ServerEvent = ServerEvent(
    kind: string, agentName: string, content: string, toolCalls: seq<CallInfo>, actionType: string,
    error: string, message: string, sessionId: string, turns: seq<Turn>)

  /** The chat frame sendMessage sends; `agent_name` and `file_paths` are present only when set. */
  datatype Payload = Payload(
    kind: string, sessionId: string, message: string, mode: string,
    agentName: Option<string>, filePaths: Option<seq<string>>)

  /**
   * The fields of FKTeamsChat that the model keeps. `sendVisible` is the
   * send button shown with the input enabled, rather than the cancel
   * button with the input disabled; `sendEnabled` is the send button's
   * enabled state.
   */
  datatype ClientState = ClientState(
    chat: Transcript, isProcessing: bool, mode: string, sessionId: string,
    currentAgent: Option<AgentInfo>, agents: seq<AgentInfo>, input: TextArea,
    sendVisible: bool, sendEnabled: bool, agentPopup: AgentPopup, filePopup: FilePopup,
    questions: seq<Question>, nav: NavView, notices: seq<Notice>, nextNotice: nat,
    reconnectAttempts: nat, userScrolledUp: bool)

  /**
   * The transcript is valid, both suggestion lists select within their
   * rows, the cursor lies in the text, at most three notifications are
   * active and every one has an identity below the next one handed out,
   * at most five reconnects have been attempted, and the navigator is
   * shown exactly when there are questions, with one row per question.
   */
  predicate ClientValid(s: ClientState) {
    Valid(s.chat) && PopupValid(s.agentPopup) && FilePopupValid(s.filePopup)
    && s.input.cursor <= |s.input.value|
    && |s.notices| <= MaxNotices && (forall i :: 0 <= i < |s.notices| ==> s.notices[i].id < s.nextNotice)
    && s.reconnectAttempts <= MaxReconnectAttempts
    && (s.nav.shown <==> |s.questions| > 0) && (s.nav.shown ==> |s.nav.items| == |s.questions|)
  }

  /** The client as the constructor leaves it: the welcome card, team mode, session `default`. */
  function Initial(): (s: ClientState)
    ensures ClientValid(s)
  {
    ClientState(Transcript([Welcome], None, false), false, "supervisor", "default", None, [], TextArea("", 0),
                true, false, AgentPopup(false, [], -1), FilePopup(false, None, [], -1), [], NavView(false, []),
                [], 0, 0, false)
  }

  /** A notification is shown with the next identity. */
  function Notify(s: ClientState, text: string, kind: string): (r: ClientState)
    requires ClientValid(s)
    ensures ClientValid(r)
    ensures r == s.(notices := Notified(s.notices, s.nextNotice, text, kind), nextNotice := s.nextNotice + 1)
  {
    var r := s.(notices := Notified(s.notices, s.nextNotice, text, kind), nextNotice := s.nextNotice + 1);
    assert forall i :: 0 <= i < |r.notices| ==> r.notices[i] in s.notices || r.notices[i].id == s.nextNotice;
    r
  }

  /** updateSendButtonState */
  function ButtonsUpdated(s: ClientState): (r: ClientState)
    requires ClientValid(s)
    ensures ClientValid(r)
    ensures r.sendVisible == !s.isProcessing
    ensures !s.isProcessing ==> (r.sendEnabled <==> Trim(s.input.value) != "")
    ensures s.isProcessing ==> r.sendEnabled == s.sendEnabled
    ensures r == s.(sendVisible := r.sendVisible, sendEnabled := r.sendEnabled)
  {
    if s.isProcessing then s.(sendVisible := false)
    else s.(sendVisible := true, sendEnabled := Trim(s.input.value) != "")
  }

  /** handleInputChange: the send button is enabled only with text and while idle. */
  function InputChanged(s: ClientState): (r: ClientState)
    requires ClientValid(s)
    ensures ClientValid(r)
    ensures r.sendEnabled <==> Trim(s.input.value) != "" && !s.isProcessing
    ensures r == s.(sendVisible := !s.isProcessing, sendEnabled := r.sendEnabled)
  {
    ButtonsUpdated(s.(sendEnabled := Trim(s.input.value) != "" && !s.isProcessing))
  }

  /** A card other than the welcome appended to the transcript. */
  function Appended(t: Transcript, c: Card): (u: Transcript)
    requires Valid(t) && !c.Welcome?
    ensures Valid(u) && u == t.(cards := t.cards + [c])
  {
    AppendValid(t, [c]);
    t.(cards := t.cards + [c])
  }

  /** The welcome card removed, when it is there; the open card stays the same card. */
  function WithoutWelcome(t: Transcript): (u: Transcript)
    requires Valid(t)
    ensures Valid(u) && NoWelcome(u.cards) && u.toolFlag == t.toolFlag && u.open.Some? == t.open.Some?
    ensures |t.cards| > 0 && t.cards[0].Welcome? ==> u.cards == t.cards[1..]
    ensures !(|t.cards| > 0 && t.cards[0].Welcome?) ==> u == t
    ensures u.open.Some? ==> u.cards[u.open.value] == t.cards[t.open.value]
  {
    if |t.cards| > 0 && t.cards[0].Welcome? then
      Transcript(t.cards[1..], if t.open.Some? then Some(t.open.value - 1) else None, t.toolFlag)
    else t
  }

  // ---------------------------------------------------------------------
  // The question navigator (navigation.js)

  /** addQuestionToNav: exactly one question is appended and the rows are rebuilt. */
  function QuestionAdded(s: ClientState, q: Question): (r: ClientState)
    requires ClientValid(s)
    ensures ClientValid(r)
    ensures r == s.(questions := s.questions + [q], nav := NavView(true, NavRows(s.questions + [q])))
  {
    s.(questions := s.questions + [q], nav := QuickNav(s.nav, s.questions + [q]))
  }

  /** clearQuickNav: no questions, and the navigator hidden with its old rows in place. */
  function NavCleared(s: ClientState): (r: ClientState)
    requires ClientValid(s)
    ensures ClientValid(r)
    ensures r == s.(questions := [], nav := s.nav.(shown := false))
  {
    s.(questions := [], nav := QuickNav(s.nav, []))
  }

  /**
   * The navigator after questions are asked: the newest is the top row,
   * active and numbered with the question count, and every earlier row
   * moved down one place with its mark cleared.
   */
  lemma AskedTwice(s: ClientState, q1: Question, q2: Question)
    requires ClientValid(s)
    ensures var r := QuestionAdded(QuestionAdded(s, q1), q2);
      r.questions == s.questions + [q1, q2] && r.nav.shown
      && r.nav.items[0] == NavItem(q2.id, |s.questions| + 2, ShortText(q2.content), true)
      && r.nav.items[1] == NavItem(q1.id, |s.questions| + 1, ShortText(q1.content), false)
  {
    var qs := s.questions + [q1];
    NavAdd(qs, q2);
    NavAdd(s.questions, q1);
    assert s.questions + [q1] + [q2] == s.questions + [q1, q2];
    assert Deactivated(NavRows(qs))[0] == NavRows(qs)[0].(active := false);
  }

  // ---------------------------------------------------------------------
  // Server events (handleServerEvent)

  /** handleHistoryLoaded: the transcript and the questions rebuilt from the turns, and a notification. */
  function HistoryLoaded(s: ClientState, ev: ServerEvent, json: Json, clock: Clock): (r: ClientState)
    requires ClientValid(s)
    ensures ClientValid(r)
  {
    var l := LoadAll(ev.turns, clock, json, false);
    LoadAllNoWelcome(ev.turns, clock, json, false);
    var s1 := s.(chat := Transcript(l.cards, None, false), questions := l.questions, nav := QuickNav(s.nav, l.questions),
                 sessionId := if ev.sessionId != "" then ev.sessionId else s.sessionId);
    if |ev.turns| > 0 then Notify(s1, "已加载 " + Itoa(|ev.turns|) + " 条历史消息", "success")
    else Notify(s1, "历史记录为空", "info")
  }

  /** The cases of handleServerEvent's switch. */
  datatype EventKind =
    | ConnectedEvent | ProcessingStartEvent | ProcessingEndEvent | CancelledEvent | HistoryClearedEvent
    | HistoryLoadedEvent | StreamChunkEvent | MessageEvent | ToolCallsPreparingEvent | ToolCallsEvent
    | ToolResultEvent | AgentActionEvent | ErrorEvent | UnknownEvent

  /** The case a frame's `type` selects; `tool_result_chunk` falls through to `tool_result`'s case. */
  function KindOf(kind: string): EventKind {
    if kind == "connected" then ConnectedEvent
    else if kind == "processing_start" then ProcessingStartEvent
    else if kind == "processing_end" then ProcessingEndEvent
    else if kind == "cancelled" then CancelledEvent
    else if kind == "history_cleared" then HistoryClearedEvent
    else if kind == "history_loaded" then HistoryLoadedEvent
    else if kind == "stream_chunk" then StreamChunkEvent
    else if kind == "message" then MessageEvent
    else if kind == "tool_calls_preparing" then ToolCallsPreparingEvent
    else if kind == "tool_calls" then ToolCallsEvent
    else if kind == "tool_result" || kind == "tool_result_chunk" then ToolResultEvent
    else if kind == "action" then AgentActionEvent
    else if kind == "error" then ErrorEvent
    else UnknownEvent
  }

  /** The `type` the server sends for a case. */
  function KindName(k: EventKind): string {
    match k
    case ConnectedEvent => "connected"
    case ProcessingStartEvent => "processing_start"
    case ProcessingEndEvent => "processing_end"
    case CancelledEvent => "cancelled"
    case HistoryClearedEvent => "history_cleared"
    case HistoryLoadedEvent => "history_loaded"
    case StreamChunkEvent => "stream_chunk"
    case MessageEvent => "message"
    case ToolCallsPreparingEvent => "tool_calls_preparing"
    case ToolCallsEvent => "tool_calls"
    case ToolResultEvent => "tool_result"
    case AgentActionEvent => "action"
    case ErrorEvent => "error"
    case UnknownEvent => ""
  }

  /**
   * Every case is selected by its own name and by no other, the chunked
   * tool result shares the tool result's case, and a type without a case
   * selects none.
   */
  lemma KindNames(k: EventKind, kind: string)
    ensures k != UnknownEvent ==> KindOf(KindName(k)) == k
    ensures KindOf("tool_result_chunk") == ToolResultEvent
    ensures KindOf(kind) == UnknownEvent <==>
      kind !in {"connected", "processing_start", "processing_end", "cancelled", "history_cleared", "history_loaded",
                "stream_chunk", "message", "tool_calls_preparing", "tool_calls", "tool_result", "tool_result_chunk",
                "action", "error"}
  {
  }

  /** The transcript replaced, everything else kept. */
  function WithChat(s: ClientState, t: Transcript): (r: ClientState)
    requires ClientValid(s) && Valid(t)
    ensures ClientValid(r) && r == s.(chat := t)
  {
    s.(chat := t)
  }

  /** The end of a request (processing_end, cancelled, error): not processing, the send button back. */
  function Stopped(s: ClientState, t: Transcript): (r: ClientState)
    requires ClientValid(s) && Valid(t)
    ensures ClientValid(r) && r == ButtonsUpdated(s.(isProcessing := false, chat := t))
    ensures !r.isProcessing && r.sendVisible && r.chat == t
  {
    ButtonsUpdated(s.(isProcessing := false, chat := t))
  }

  /** How each event that changes only the transcript changes it; other events leave it. */
  function Transcribed(t: Transcript, ev: ServerEvent, json: Json, clock: Clock): (u: Transcript)
    requires Valid(t)
    ensures Valid(u)
  {
    match KindOf(ev.kind)
    case StreamChunkEvent => StreamChunk(t, ev.agentName, ev.content, clock.now)
    case MessageEvent => MessageText(t, ev.agentName, ev.content, clock.now)
    case ToolCallsPreparingEvent => ToolsPreparing(t, ev.toolCalls)
    case ToolCallsEvent => ToolCallsArrived(t, ev.toolCalls, json)
    case ToolResultEvent => ToolResultArrived(t, ev.content, json)
    case AgentActionEvent => ActionArrived(t, ev.agentName, ev.actionType, ev.content)
    case _ => t
  }

  /** The client after one server event; `clock.now` is the current time text. */
  function OnEvent(s: ClientState, ev: ServerEvent, json: Json, clock: Clock): (r: ClientState)
    requires ClientValid(s)
    ensures ClientValid(r)
  {
    match KindOf(ev.kind)
    case ConnectedEvent => s
    case ProcessingStartEvent => s.(isProcessing := true)
    case ProcessingEndEvent => Stopped(s, Ended(s.chat))
    case CancelledEvent => Notify(Stopped(s, CancelArrived(s.chat, ev.message)), "任务已取消", "success")
    case HistoryClearedEvent => Notify(s, "历史记录已清除", "success")
    case HistoryLoadedEvent => HistoryLoaded(s, ev, json, clock)
    case StreamChunkEvent | MessageEvent | ToolCallsPreparingEvent | ToolCallsEvent | ToolResultEvent | AgentActionEvent =>
      WithChat(s, Transcribed(s.chat, ev, json, clock))
    case ErrorEvent => Stopped(s, ErrorArrived(s.chat, ev.agentName, ev.error))
    case UnknownEvent => s
  }

  /**
   * The dispatcher's rules: processing_end and cancelled stop processing
   * and clear the open card and the tool flag; action and error keep the
   * open card and the flag, and error stops processing; the transcript
   * events change only the transcript; connected and unknown types change
   * nothing.
   */
  lemma DispatchRules(s: ClientState, ev: ServerEvent, json: Json, clock: Clock)
    requires ClientValid(s)
    ensures var r := OnEvent(s, ev, json, clock);
      var k := KindOf(ev.kind);
      (k == ProcessingStartEvent ==> r == s.(isProcessing := true))
      && (k in {ProcessingEndEvent, CancelledEvent} ==> !r.isProcessing && r.chat.open.None? && !r.chat.toolFlag && r.sendVisible)
      && (k in {AgentActionEvent, ErrorEvent} ==> r.chat.open == s.chat.open && r.chat.toolFlag == s.chat.toolFlag)
      && (k == ErrorEvent ==> !r.isProcessing && r.sendVisible && r.chat.cards == s.chat.cards + [ErrorCard(ev.agentName, ev.error)])
      && (k in {StreamChunkEvent, MessageEvent, ToolCallsPreparingEvent, ToolCallsEvent, ToolResultEvent, AgentActionEvent} ==>
            r == s.(chat := r.chat))
      && (k in {ConnectedEvent, UnknownEvent} ==> r == s)
  {
  }

  /** Loading a history empties the transcript of everything before it and closes the open card. */
  lemma HistoryReplaces(s: ClientState, ev: ServerEvent, json: Json, clock: Clock)
    requires ClientValid(s) && KindOf(ev.kind) == HistoryLoadedEvent
    ensures var r := OnEvent(s, ev, json, clock);
      var l := LoadAll(ev.turns, clock, json, false);
      r.chat == Transcript(l.cards, None, false) && r.questions == l.questions
      && (r.nav.shown <==> |l.questions| > 0) && r.isProcessing == s.isProcessing
  {
  }

  // ---------------------------------------------------------------------
  // Sending (sendMessage)

  /** The message has no mention, or its mention names a known agent. */
  predicate MentionResolves(agents: seq<AgentInfo>, message: string) {
    match ExtractAgentMention(message)
    case None => true
    case Some(m) => FindAgent(agents, m.agentName).Some?
  }

  /** The agent a message goes to: the mentioned one, or without a mention the current one. */
  function Routed(agents: seq<AgentInfo>, current: Option<AgentInfo>, message: string): Option<AgentInfo>
    requires MentionResolves(agents, message)
  {
    match ExtractAgentMention(message)
    case None => current
    case Some(m) => FindAgent(agents, m.agentName)
  }

  /** The frame's `agent_name`: present only while an agent is routed to. */
  function AgentField(a: Option<AgentInfo>): Option<string> {
    if a.Some? then Some(a.value.name) else None
  }

  /** The frame's `file_paths`: present only when the message names paths. */
  function PathsField(paths: seq<string>): Option<seq<string>> {
    if |paths| > 0 then Some(paths) else None
  }

  /** The start of a send: the welcome card goes, scrolling resumes, both lists close. */
  function SendStarted(s: ClientState): (r: ClientState)
    requires ClientValid(s)
    ensures ClientValid(r) && r.chat == WithoutWelcome(s.chat) && NoWelcome(r.chat.cards) && !r.userScrolledUp
    ensures !r.agentPopup.shown && !r.filePopup.shown
    ensures r == s.(chat := r.chat, userScrolledUp := false, agentPopup := r.agentPopup, filePopup := r.filePopup)
  {
    s.(chat := WithoutWelcome(s.chat), userScrolledUp := false,
       agentPopup := HideAgents(s.agentPopup), filePopup := HideFiles(s.filePopup))
  }

  /** showAgentSwitchNotification: the routing agent changes and a switch card is appended. */
  function Switched(s: ClientState, a: AgentInfo): (r: ClientState)
    requires ClientValid(s)
    ensures ClientValid(r)
    ensures r == s.(currentAgent := Some(a), chat := s.chat.(cards := s.chat.cards + [SwitchCard(a.name, a.description)]))
  {
    s.(currentAgent := Some(a), chat := Appended(s.chat, SwitchCard(a.name, a.description)))
  }

  /** The input emptied once the frame is sent, and the client processing with the cancel button shown. */
  function Waiting(s: ClientState): (r: ClientState)
    requires ClientValid(s)
    ensures ClientValid(r)
    ensures r.input == TextArea("", 0) && r.isProcessing && !r.sendVisible && !r.sendEnabled
    ensures r == s.(input := r.input, isProcessing := true, sendVisible := false, sendEnabled := false)
  {
    var s1 := InputChanged(s.(input := TextArea("", 0)));
    ButtonsUpdated(s1.(isProcessing := true))
  }

  /** addUserMessage, the chat frame, and the reset of the input once it is sent. */
  function Posted(s: ClientState, message: string, now: string, msgId: string): (r: (ClientState, Option<Payload>))
    requires ClientValid(s)
    ensures ClientValid(r.0)
    ensures r.1 == Some(Payload("chat", s.sessionId, message, s.mode, AgentField(s.currentAgent), PathsField(HashPaths(message))))
    ensures r.0.chat.cards == s.chat.cards + [UserCard(msgId, message, now)]
    ensures r.0.questions == s.questions + [Question(msgId, message)] && r.0.nav.shown
    ensures r.0.currentAgent == s.currentAgent && r.0.userScrolledUp == s.userScrolledUp
    ensures r.0.input == TextArea("", 0) && r.0.isProcessing && !r.0.sendVisible
  {
    var s1 := QuestionAdded(WithChat(s, Appended(s.chat, UserCard(msgId, message, now))), Question(msgId, message));
    (Waiting(s1), Some(Payload("chat", s.sessionId, message, s.mode, AgentField(s.currentAgent), PathsField(HashPaths(message)))))
  }

  /**
   * sendMessage: nothing happens for blank input or while processing;
   * otherwise the welcome card goes, scrolling resumes, the suggestion
   * lists close, and the message is sent unless its mention names an
   * unknown agent, which only shows an error.
   */
  function Send(s: ClientState, now: string, msgId: string): (r: (ClientState, Option<Payload>))
    requires ClientValid(s)
    ensures ClientValid(r.0)
  {
    var message := Trim(s.input.value);
    if message == "" || s.isProcessing then (s, None)
    else
      var s1 := SendStarted(s);
      match ExtractAgentMention(message)
      case None => Posted(s1, message, now, msgId)
      case Some(m) =>
        match FindAgent(s.agents, m.agentName)
        case None => (Notify(s1, "未找到智能体: " + m.agentName, "error"), None)
        case Some(a) => Posted(Switched(s1, a), message, now, msgId)
  }

  /**
   * A frame is sent exactly when the trimmed input is not empty, no
   * request is processing and any mention names a known agent. Blank
   * input or a busy client changes nothing; an unknown agent leaves the
   * routing agent, the questions and the processing state as they were.
   */
  lemma SendRefused(s: ClientState, now: string, msgId: string)
    requires ClientValid(s)
    ensures var (r, sent) := Send(s, now, msgId);
      var message := Trim(s.input.value);
      (sent.Some? <==> message != "" && !s.isProcessing && MentionResolves(s.agents, message))
      && (message == "" || s.isProcessing ==> r == s)
      && (sent.None? ==> r.currentAgent == s.currentAgent && r.questions == s.questions && r.isProcessing == s.isProcessing)
  {
  }

  /**
   * A frame that is sent carries the trimmed text whole, the session, the
   * mode, the agent the message is routed to and the `#` paths in order,
   * and the routing agent becomes that agent.
   */
  lemma SendFrame(s: ClientState, now: string, msgId: string)
    requires ClientValid(s)
    requires Trim(s.input.value) != "" && !s.isProcessing && MentionResolves(s.agents, Trim(s.input.value))
    ensures var (r, sent) := Send(s, now, msgId);
      var message := Trim(s.input.value);
      var agent := Routed(s.agents, s.currentAgent, message);
      sent == Some(Payload("chat", s.sessionId, message, s.mode, AgentField(agent), PathsField(HashPaths(message))))
      && r.currentAgent == agent
  {
    var message := Trim(s.input.value);
    var s1 := SendStarted(s);
    match ExtractAgentMention(message) {
      case None =>
        assert Send(s, now, msgId) == Posted(s1, message, now, msgId);
      case Some(m) =>
        var a := FindAgent(s.agents, m.agentName).value;
        assert Send(s, now, msgId) == Posted(Switched(s1, a), message, now, msgId);
    }
  }

  /**
   * Sending a message: the transcript loses its welcome card and gains the
   * switch card of a mention and then the user card; the question is the
   * newest in the navigator; the input is emptied and the client is
   * processing with the cancel button shown.
   */
  lemma SendPosts(s: ClientState, now: string, msgId: string)
    requires ClientValid(s)
    requires Trim(s.input.value) != "" && !s.isProcessing && MentionResolves(s.agents, Trim(s.input.value))
    ensures var r := Send(s, now, msgId).0;
      var message := Trim(s.input.value);
      var agent := Routed(s.agents, s.currentAgent, message);
      var kept := WithoutWelcome(s.chat).cards;
      r.chat.cards == (if ExtractAgentMention(message).Some? then kept + [SwitchCard(agent.value.name, agent.value.description)] else kept)
                      + [UserCard(msgId, message, now)]
      && r.questions == s.questions + [Question(msgId, message)] && r.nav.shown
      && r.input == TextArea("", 0) && r.isProcessing && !r.sendVisible && !r.userScrolledUp
  {
    var message := Trim(s.input.value);
    var s1 := SendStarted(s);
    var u := UserCard(msgId, message, now);
    match ExtractAgentMention(message) {
      case None =>
        assert Send(s, now, msgId) == Posted(s1, message, now, msgId);
      case Some(m) =>
        var a := FindAgent(s.agents, m.agentName).value;
        var s2 := Switched(s1, a);
        assert Send(s, now, msgId) == Posted(s2, message, now, msgId);
        assert s2.chat.cards == s1.chat.cards + [SwitchCard(a.name, a.description)];
    }
  }

  /**
   * Routing is sticky: once a message names an agent, a later message
   * without a mention goes to the same agent.
   */
  lemma StickyRouting(agents: seq<AgentInfo>, current: Option<AgentInfo>, first: string, second: string)
    requires MentionResolves(agents, first) && ExtractAgentMention(first).Some?
    requires ExtractAgentMention(second).None?
    ensures MentionResolves(agents, second)
    ensures Routed(agents, Routed(agents, current, first), second) == FindAgent(agents, ExtractAgentMention(first).value.agentName)
  {
  }

  // ---------------------------------------------------------------------
  // Other user actions

  /** cancelTask: a cancel frame and a notification only while processing. */
  function CancelRequested(s: ClientState): (r: (ClientState, bool))
    requires ClientValid(s)
    ensures ClientValid(r.0)
    ensures r.1 == s.isProcessing && (!s.isProcessing ==> r.0 == s)
  {
    if !s.isProcessing then (s, false) else (Notify(s, "正在取消任务...", "info"), true)
  }

  /** The name resetToTeamMode shows for a mode. */
  function ModeName(mode: string): string {
    if mode == "supervisor" then "团队模式" else if mode == "roundtable" then "圆桌讨论模式" else "自定义会议模式"
  }

  /** resetToTeamMode: no routing agent, a reset card and a notification. */
  function TeamModeRestored(s: ClientState): (r: ClientState)
    requires ClientValid(s)
    ensures ClientValid(r) && r.currentAgent.None?
    ensures r.chat.cards == s.chat.cards + [ResetCard(ModeName(s.mode))]
  {
    Notify(s.(currentAgent := None, chat := Appended(s.chat, ResetCard(ModeName(s.mode)))), "已切换回团队模式", "success")
  }

  /** setMode: the mode changes and a routing agent, if any, is dropped with a notification. */
  function ModeSet(s: ClientState, mode: string): (r: ClientState)
    requires ClientValid(s)
    ensures ClientValid(r) && r.mode == mode && r.currentAgent.None?
    ensures s.currentAgent.None? ==> r == s.(mode := mode)
    ensures r.chat == s.chat && r.isProcessing == s.isProcessing
  {
    var s1 := s.(mode := mode);
    if s.currentAgent.Some? then Notify(s1.(currentAgent := None), "已切换回团队模式", "success") else s1
  }

  /** clearChatUI: only the welcome card, no open card, no flag, no questions. */
  function ChatCleared(s: ClientState): (r: ClientState)
    requires ClientValid(s)
    ensures ClientValid(r)
    ensures r == s.(chat := Transcript([Welcome], None, false), questions := [], nav := s.nav.(shown := false))
  {
    NavCleared(s.(chat := Transcript([Welcome], None, false)))
  }

  /** handleScroll: scrolled up exactly when more than 100 px from the bottom. */
  function Scrolled(s: ClientState, scrollTop: int, scrollHeight: int, clientHeight: int): (r: ClientState)
    requires ClientValid(s)
    ensures ClientValid(r)
    ensures r == s.(userScrolledUp := scrollHeight - scrollTop - clientHeight > 100)
  {
    s.(userScrolledUp := scrollHeight - scrollTop - clientHeight > 100)
  }

  /** scrollToBottom follows new content exactly when the user is within 100 px of the bottom. */
  lemma FollowsNearBottom(s: ClientState, scrollTop: int, scrollHeight: int, clientHeight: int)
    requires ClientValid(s)
    ensures !Scrolled(s, scrollTop, scrollHeight, clientHeight).userScrolledUp <==> scrollHeight - scrollTop - clientHeight <= 100
  {
  }

  /** ws.onopen: the reconnect counter starts again. */
  function Connected(s: ClientState): (r: ClientState)
    requires ClientValid(s)
    ensures ClientValid(r) && r == s.(reconnectAttempts := 0)
  {
    s.(reconnectAttempts := 0)
  }

  /** ws.onclose: tryReconnect, with the delay of the retry it schedules. */
  function Closed(s: ClientState): (r: (ClientState, Option<nat>))
    requires ClientValid(s)
    ensures ClientValid(r.0)
  {
    var (a, d) := Retry(s.reconnectAttempts);
    (s.(reconnectAttempts := a), d)
  }

  /** After a successful open, five closes schedule retries after 2, 4, 6, 8 and 10 seconds and a sixth none. */
  lemma ReconnectBackoff(s: ClientState)
    requires ClientValid(s)
    ensures Retries(Connected(s).reconnectAttempts, 6) == (5, [2000, 4000, 6000, 8000, 10000])
  {
    RetriesSchedule(0, 6);
    var (last, ds) := Retries(0, 6);
    assert ds == [2000, 4000, 6000, 8000, 10000];
  }

  /**
   * handleInputForMention: the agent list for an `@partial` before the
   * cursor, else the file list for a `#partial` with the listing of its
   * directory, else both lists closed.
   */
  function MentionLists(s: ClientState, listing: seq<FileEntry>): (r: ClientState)
    requires ClientValid(s)
    ensures ClientValid(r)
    ensures r == s.(agentPopup := r.agentPopup, filePopup := r.filePopup)
  {
    var before := s.input.value[..s.input.cursor];
    match AtSearch(before)
    case Some(search) =>
      s.(agentPopup := ShowAgents(s.agentPopup, s.agents, search), filePopup := HideFiles(s.filePopup))
    case None =>
      match HashMatch(before)
      case Some(at) =>
        s.(filePopup := ShowFiles(s.filePopup, listing, before[at + 1..]), agentPopup := HideAgents(s.agentPopup))
      case None => s.(agentPopup := HideAgents(s.agentPopup), filePopup := HideFiles(s.filePopup))
  }

  /** The input event: handleInputChange, then handleInputForMention. */
  function Typed(s: ClientState, value: string, cursor: nat, listing: seq<FileEntry>): (r: ClientState)
    requires ClientValid(s) && cursor <= |value|
    ensures ClientValid(r) && r.input == TextArea(value, cursor)
    ensures r.sendEnabled <==> Trim(value) != "" && !s.isProcessing
  {
    MentionLists(InputChanged(s.(input := TextArea(value, cursor))), listing)
  }

  /** The `@partial` takes precedence: with both partials open before the cursor only the agent list opens. */
  lemma AgentListFirst(s: ClientState, value: string, cursor: nat, listing: seq<FileEntry>)
    requires ClientValid(s) && cursor <= |value|
    requires AtSearch(value[..cursor]).Some?
    ensures !Typed(s, value, cursor, listing).filePopup.shown
    ensures Typed(s, value, cursor, listing).agentPopup == ShowAgents(s.agentPopup, s.agents, AtSearch(value[..cursor]).value)
  {
  }

  /** insertFileMention: the path completes a `#partial` before the cursor, and the file list closes. */
  function FilePathInserted(s: ClientState, path: string): (r: ClientState)
    requires ClientValid(s)
    ensures ClientValid(r) && !r.filePopup.shown
    ensures HashMatch(s.input.value[..s.input.cursor]).None? ==> r == s.(filePopup := HideFiles(s.filePopup))
    ensures HashMatch(s.input.value[..s.input.cursor]).Some? ==> r.input == InsertFileMention(s.input, path)
  {
    var s1 := if HashMatch(s.input.value[..s.input.cursor]).Some? then InputChanged(s.(input := InsertFileMention(s.input, path))) else s;
    s1.(filePopup := HideFiles(s1.filePopup))
  }

  /** insertAgentMention: the name completes an `@partial` before the cursor, and the agent list closes. */
  function AgentNameInserted(s: ClientState, name: string): (r: ClientState)
    requires ClientValid(s)
    ensures ClientValid(r) && !r.agentPopup.shown
    ensures AtMatch(s.input.value[..s.input.cursor]).None? ==> r == s.(agentPopup := HideAgents(s.agentPopup))
    ensures AtMatch(s.input.value[..s.input.cursor]).Some? ==> r.input == InsertAgentMention(s.input, name)
  {
    var s1 := if AtMatch(s.input.value[..s.input.cursor]).Some? then InputChanged(s.(input := InsertAgentMention(s.input, name))) else s;
    s1.(agentPopup := HideAgents(s1.agentPopup))
  }

  /** The follow-up of a file-list key: insert the path, browse to another directory, or nothing. */
  function FileActed(s: ClientState, action: FileAction, listing: seq<FileEntry>): (r: ClientState)
    requires ClientValid(s)
    ensures ClientValid(r)
  {
    match action
    case NoAction => s
    case InsertPath(path) => FilePathInserted(s, path)
    case Browse(search) => s.(filePopup := ShowFiles(s.filePopup, listing, search))
  }

  /**
   * handleKeyDown: the file list first, then the agent list, and only a
   * key neither handles reaches the input, where Enter without Shift
   * sends when the send button is enabled.
   */
  function KeyPressed(s: ClientState, key: Key, shift: bool, listing: seq<FileEntry>, now: string, msgId: string): (r: (ClientState, Option<Payload>))
    requires ClientValid(s)
    ensures ClientValid(r.0)
  {
    FileKeysValid(s.filePopup, key);
    AgentKeysValid(s.agentPopup, key);
    var fk := FileKeyDown(s.filePopup, key);
    if fk.handled then (FileActed(s.(filePopup := fk.popup), fk.action, listing), None)
    else
      var ak := AgentKeyDown(s.agentPopup, key);
      if ak.handled then
        (if ak.pick.Some? then AgentNameInserted(s.(agentPopup := ak.popup), ak.pick.value) else s.(agentPopup := ak.popup), None)
      else if key == Enter && !shift && s.sendEnabled then Send(s, now, msgId)
      else (s, None)
  }

  /**
   * While a suggestion list is shown, Enter never sends; with both lists
   * hidden, Enter without Shift sends exactly what the send button would.
   */
  lemma EnterSendsOnlyWithoutLists(s: ClientState, listing: seq<FileEntry>, now: string, msgId: string)
    requires ClientValid(s)
    ensures s.filePopup.shown && Selected(s.filePopup).Some? ==> KeyPressed(s, Enter, false, listing, now, msgId).1.None?
    ensures s.agentPopup.shown ==> KeyPressed(s, Enter, false, listing, now, msgId).1.None?
    ensures !s.filePopup.shown && !s.agentPopup.shown && s.sendEnabled ==>
      KeyPressed(s, Enter, false, listing, now, msgId) == Send(s, now, msgId)
    ensures KeyPressed(s, Enter, true, listing, now, msgId).1.None?
  {
    FileKeysValid(s.filePopup, Enter);
    AgentKeysValid(s.agentPopup, Enter);
  }

  /**
   * The loop of handleHistoryLoaded over the turns, on an emptied
   * transcript and a cleared navigator: a user turn with text adds its
   * card and its question and rebuilds the navigator, any other turn adds
   * its agent's cards.
   */
  method ReplayHistory(turns: seq<Turn>, clock: Clock, json: Json, v: NavView)
    returns (cards: seq<Card>, asked: seq<Question>, view: NavView)
    ensures Loaded(cards, asked) == LoadAll(turns, clock, json, false)
    ensures view == QuickNav(v, asked)
  {
    cards, asked, view := [], [], QuickNav(v, []);
    for i := 0 to |turns|
      invariant Loaded(cards, asked) == LoadAll(turns[..i], clock, json, false)
      invariant view == QuickNav(v, asked)
    {
      assert turns[..i + 1][..i] == turns[..i];
      var turn := turns[i];
      if turn.agentName == UserName {
        var content := Texts(turn.events);
        if content != "" {
          cards := cards + [UserTurnCard(turn, clock)];
          asked := asked + [Question(QuestionId(turn, clock), content)];
          view := QuickNav(view, asked);
        }
      } else {
        cards := TurnCards(turn, cards, clock, json, false);
      }
    }
    assert turns[..|turns|] == turns;
  }

  class ChatClient {
    var cards: seq<Card>
    var open: Option<nat>
    var toolFlag: bool
    var isProcessing: bool
    var mode: string
    var sessionId: string
    var currentAgent: Option<AgentInfo>
    var agents: seq<AgentInfo>
    var input: TextArea
    var sendVisible: bool
    var sendEnabled: bool
    var agentPopup: AgentPopup
    var filePopup: FilePopup
    var questions: seq<Question>
    var nav: NavView
    var notices: seq<Notice>
    var nextNotice: nat
    var reconnectAttempts: nat
    var userScrolledUp: bool

    function Chat(): Transcript
      reads this
    {
      Transcript(cards, open, toolFlag)
    }

    function State(): ClientState
      reads this
    {
      ClientState(Chat(), isProcessing, mode, sessionId, currentAgent, agents, input, sendVisible, sendEnabled,
                  agentPopup, filePopup, questions, nav, notices, nextNotice, reconnectAttempts, userScrolledUp)
    }

    predicate Valid()
      reads this
    {
      ClientValid(State())
    }

    constructor ()
      ensures Valid() && State() == Initial()
    {
      cards, open, toolFlag := [Welcome], None, false;
      isProcessing, mode, sessionId, currentAgent, agents := false, "supervisor", "default", None, [];
      input, sendVisible, sendEnabled := TextArea("", 0), true, false;
      agentPopup, filePopup := AgentPopup(false, [], -1), FilePopup(false, None, [], -1);
      questions, nav, notices, nextNotice := [], NavView(false, []), [], 0;
      reconnectAttempts, userScrolledUp := 0, false;
    }

    // The single-field updates the handlers below are made of; each first
    // names the state it produces.

    /** loadAgents: the agent list the server returned. */
    method AgentsLoaded(list: seq<AgentInfo>)
      requires Valid()
      modifies this
      ensures Valid() && State() == old(State()).(agents := list)
    {
      ghost var target := State().(agents := list);
      assert ClientValid(target);
      agents := list;
      assert State() == target;
    }

    /** Replaces the transcript, the open card and the flag. */
    method SetChat(t: Transcript)
      requires Valid() && WebCards.Valid(t)
      modifies this
      ensures Valid() && State() == old(State()).(chat := t)
    {
      ghost var target := State().(chat := t);
      assert ClientValid(target);
      cards, open, toolFlag := t.cards, t.open, t.toolFlag;
      assert State() == target;
    }

    method SetInput(area: TextArea)
      requires Valid() && area.cursor <= |area.value|
      modifies this
      ensures Valid() && State() == old(State()).(input := area)
    {
      ghost var target := State().(input := area);
      assert ClientValid(target);
      input := area;
      assert State() == target;
    }

    method SetProcessing(processing: bool)
      requires Valid()
      modifies this
      ensures Valid() && State() == old(State()).(isProcessing := processing)
    {
      ghost var target := State().(isProcessing := processing);
      assert ClientValid(target);
      isProcessing := processing;
      assert State() == target;
    }

    method SetRouting(agent: Option<AgentInfo>)
      requires Valid()
      modifies this
      ensures Valid() && State() == old(State()).(currentAgent := agent)
    {
      ghost var target := State().(currentAgent := agent);
      assert ClientValid(target);
      currentAgent := agent;
      assert State() == target;
    }

    method SetPopups(a: AgentPopup, f: FilePopup)
      requires Valid() && PopupValid(a) && FilePopupValid(f)
      modifies this
      ensures Valid() && State() == old(State()).(agentPopup := a, filePopup := f)
    {
      ghost var target := State().(agentPopup := a, filePopup := f);
      assert ClientValid(target);
      agentPopup, filePopup := a, f;
      assert State() == target;
    }

    method SetAgentPopup(p: AgentPopup)
      requires Valid() && PopupValid(p)
      modifies this
      ensures Valid() && State() == old(State()).(agentPopup := p)
    {
      ghost var target := State().(agentPopup := p);
      assert ClientValid(target);
      agentPopup := p;
      assert State() == target;
    }

    method SetFilePopup(p: FilePopup)
      requires Valid() && FilePopupValid(p)
      modifies this
      ensures Valid() && State() == old(State()).(filePopup := p)
    {
      ghost var target := State().(filePopup := p);
      assert ClientValid(target);
      filePopup := p;
      assert State() == target;
    }

    method SetSession(id: string)
      requires Valid()
      modifies this
      ensures Valid() && State() == old(State()).(sessionId := id)
    {
      ghost var target := State().(sessionId := id);
      assert ClientValid(target);
      sessionId := id;
      assert State() == target;
    }

    method SetScrolledUp(up: bool)
      requires Valid()
      modifies this
      ensures Valid() && State() == old(State()).(userScrolledUp := up)
    {
      ghost var target := State().(userScrolledUp := up);
      assert ClientValid(target);
      userScrolledUp := up;
      assert State() == target;
    }

    /** showNotification: the oldest notice makes room when three are shown; the new one goes below the rest. */
    method ShowNotification(text: string, kind: string)
      requires Valid()
      modifies this
      ensures Valid() && State() == Notify(old(State()), text, kind)
    {
      var kept := notices;
      if |kept| >= MaxNotices {
        kept := kept[1..];
      }
      notices := kept + [Notice(nextNotice, text, kind, StackTop(|kept|))];
      nextNotice := nextNotice + 1;
    }

    /** The timer that ends removeNotification: the notice leaves the list and the rest re-stack. */
    method NotificationRemoved(id: nat)
      requires Valid()
      modifies this
      ensures Valid() && State() == old(State()).(notices := Dismissed(old(notices), id))
    {
      var survivors := Without(notices, id);
      var restacked := [];
      var i := 0;
      while i < |survivors|
        invariant 0 <= i <= |survivors|
        invariant restacked == Restacked(survivors)[..i]
      {
        restacked := restacked + [survivors[i].(top := StackTop(i))];
        i := i + 1;
      }
      assert Restacked(survivors)[..i] == Restacked(survivors);
      forall j | 0 <= j < |restacked| ensures restacked[j].id < nextNotice {
        assert survivors[j] in survivors;
      }
      notices := restacked;
    }

    method UpdateSendButtonState()
      requires Valid()
      modifies this
      ensures Valid() && State() == ButtonsUpdated(old(State()))
    {
      if isProcessing {
        sendVisible := false;
      } else {
        sendVisible := true;
        sendEnabled := Trim(input.value) != "";
      }
    }

    method HandleInputChange()
      requires Valid()
      modifies this
      ensures Valid() && State() == InputChanged(old(State()))
    {
      ghost var target := State().(sendEnabled := Trim(input.value) != "" && !isProcessing);
      assert ClientValid(target);
      var hasContent := Trim(input.value) != "";
      sendEnabled := hasContent && !isProcessing;
      assert State() == target;
      UpdateSendButtonState();
    }

    /** updateQuickNav: the rows are rebuilt from the reversed questions, one per question. */
    method UpdateQuickNav()
      requires ClientValid(State().(nav := QuickNav(nav, questions)))
      modifies this
      ensures Valid() && State() == old(State()).(nav := QuickNav(old(nav), questions))
    {
      if |questions| == 0 {
        nav := nav.(shown := false);
        return;
      }
      var reversed := Reversed(questions);
      var items := [];
      var index := 0;
      while index < |reversed|
        invariant 0 <= index <= |reversed|
        invariant items == NavRows(questions)[..index]
      {
        items := items + [Row(reversed[index], index, |questions|)];
        index := index + 1;
      }
      assert items == NavRows(questions);
      nav := NavView(true, items);
    }

    method AddQuestionToNav(q: Question)
      requires Valid()
      modifies this
      ensures Valid() && State() == QuestionAdded(old(State()), q)
    {
      questions := questions + [q];
      UpdateQuickNav();
    }

    /** updateQuickNavHighlight: each row is marked exactly when its id is the one given. */
    method UpdateQuickNavHighlight(id: string)
      requires Valid()
      modifies this
      ensures Valid() && State() == old(State()).(nav := old(nav).(items := Highlighted(old(nav.items), id)))
    {
      var items := nav.items;
      for k := 0 to |items|
        invariant |items| == |nav.items|
        invariant forall j :: 0 <= j < k ==> items[j] == nav.items[j].(active := nav.items[j].id == id)
        invariant forall j :: k <= j < |items| ==> items[j] == nav.items[j]
      {
        items := items[k := items[k].(active := items[k].id == id)];
      }
      assert items == Highlighted(nav.items, id);
      nav := nav.(items := items);
    }

    method ClearQuickNav()
      requires Valid()
      modifies this
      ensures Valid() && State() == NavCleared(old(State()))
    {
      questions := [];
      UpdateQuickNav();
    }


    /** handleHistoryLoaded: the turns replayed into an emptied transcript, then a notification. */
    method HandleHistoryLoaded(ev: ServerEvent, json: Json, clock: Clock)
      requires Valid()
      modifies this
      ensures Valid() && State() == HistoryLoaded(old(State()), ev, json, clock)
    {
      var replayed, asked, view := ReplayHistory(ev.turns, clock, json, nav);
      LoadAllNoWelcome(ev.turns, clock, json, false);
      Reload(Transcript(replayed, None, false), asked, view);
      if ev.sessionId != "" {
        SetSession(ev.sessionId);
      }
      if |ev.turns| > 0 {
        ShowNotification("已加载 " + Itoa(|ev.turns|) + " 条历史消息", "success");
      } else {
        ShowNotification("历史记录为空", "info");
      }
    }

    /** The replayed transcript, questions and navigator put in place. */
    method Reload(t: Transcript, asked: seq<Question>, view: NavView)
      requires Valid() && WebCards.Valid(t) && (view.shown <==> |asked| > 0) && (view.shown ==> |view.items| == |asked|)
      modifies this
      ensures Valid() && State() == old(State()).(chat := t, questions := asked, nav := view)
    {
      ghost var target := State().(chat := t, questions := asked, nav := view);
      assert ClientValid(target);
      cards, open, toolFlag, questions, nav := t.cards, t.open, t.toolFlag, asked, view;
      assert State() == target;
    }

    /** The end of a request: not processing, the send button back, and the transcript `t`. */
    method EndProcessing(t: Transcript)
      requires Valid() && WebCards.Valid(t)
      modifies this
      ensures Valid() && State() == Stopped(old(State()), t)
    {
      SetProcessing(false);
      UpdateSendButtonState();
      SetChat(t);
    }

    method HandleServerEvent(ev: ServerEvent, json: Json, clock: Clock)
      requires Valid()
      modifies this
      ensures Valid() && State() == OnEvent(old(State()), ev, json, clock)
    {
      ghost var s0 := State();
      match KindOf(ev.kind) {
        case ConnectedEvent =>
        case ProcessingStartEvent =>
          SetProcessing(true);
        case ProcessingEndEvent =>
          EndProcessing(Ended(Chat()));
        case CancelledEvent =>
          EndProcessing(CancelArrived(Chat(), ev.message));
          ShowNotification("任务已取消", "success");
        case HistoryClearedEvent =>
          ShowNotification("历史记录已清除", "success");
        case HistoryLoadedEvent =>
          HandleHistoryLoaded(ev, json, clock);
        case StreamChunkEvent | MessageEvent | ToolCallsPreparingEvent | ToolCallsEvent | ToolResultEvent | AgentActionEvent =>
          SetChat(Transcribed(Chat(), ev, json, clock));
        case ErrorEvent =>
          EndProcessing(ErrorArrived(Chat(), ev.agentName, ev.error));
        case UnknownEvent =>
      }
    }

    /** ws.onmessage: a frame that does not parse is dropped; `parse` stands for JSON.parse. */
    method OnMessage(frame: string, parse: string -> Option<ServerEvent>, json: Json, clock: Clock)
      requires Valid()
      modifies this
      ensures Valid()
      ensures parse(frame).None? ==> State() == old(State())
      ensures parse(frame).Some? ==> State() == OnEvent(old(State()), parse(frame).value, json, clock)
    {
      var ev := parse(frame);
      if ev.Some? {
        HandleServerEvent(ev.value, json, clock);
      }
    }

    method OnOpen()
      requires Valid()
      modifies this
      ensures Valid() && State() == Connected(old(State()))
    {
      reconnectAttempts := 0;
    }

    /** ws.onclose and tryReconnect: the delay of the retry scheduled, if any. */
    method OnClose() returns (delay: Option<nat>)
      requires Valid()
      modifies this
      ensures Valid() && (State(), delay) == Closed(old(State()))
    {
      delay := None;
      if reconnectAttempts < MaxReconnectAttempts {
        reconnectAttempts := reconnectAttempts + 1;
        var ms: nat := 2000 * reconnectAttempts;
        delay := Some(ms);
      }
    }

    method HandleScroll(scrollTop: int, scrollHeight: int, clientHeight: int)
      requires Valid()
      modifies this
      ensures Valid() && State() == Scrolled(old(State()), scrollTop, scrollHeight, clientHeight)
    {
      var distanceFromBottom := scrollHeight - scrollTop - clientHeight;
      if distanceFromBottom > 100 {
        SetScrolledUp(true);
      } else {
        SetScrolledUp(false);
      }
    }

    /** scrollToBottom: whether the view follows the new content. */
    method ScrollToBottom() returns (scrolls: bool)
      ensures scrolls <==> !userScrolledUp
    {
      if userScrolledUp {
        return false;
      }
      scrolls := true;
    }

    method ScrollToBottomAndResume()
      requires Valid()
      modifies this
      ensures Valid() && State() == old(State()).(userScrolledUp := false)
    {
      SetScrolledUp(false);
    }

    method SetMode(m: string)
      requires Valid()
      modifies this
      ensures Valid() && State() == ModeSet(old(State()), m)
    {
      ghost var target := State().(mode := m);
      assert ClientValid(target);
      mode := m;
      assert State() == target;
      if currentAgent.Some? {
        SetRouting(None);
        ShowNotification("已切换回团队模式", "success");
      }
    }

    method ResetToTeamMode()
      requires Valid()
      modifies this
      ensures Valid() && State() == TeamModeRestored(old(State()))
    {
      SetRouting(None);
      SetChat(Appended(Chat(), ResetCard(ModeName(mode))));
      ShowNotification("已切换回团队模式", "success");
    }

    method ClearChatUI()
      requires Valid()
      modifies this
      ensures Valid() && State() == ChatCleared(old(State()))
    {
      SetChat(Transcript([Welcome], None, false));
      ClearQuickNav();
    }

    /** cancelTask: whether the cancel frame is sent. */
    method CancelTask() returns (sent: bool)
      requires Valid()
      modifies this
      ensures Valid() && (State(), sent) == CancelRequested(old(State()))
    {
      if !isProcessing {
        return false;
      }
      ShowNotification("正在取消任务...", "info");
      sent := true;
    }

    /** addUserMessage */
    method AddUserMessage(message: string, now: string, msgId: string)
      requires Valid()
      modifies this
      ensures Valid()
      ensures State() == QuestionAdded(WithChat(old(State()), Appended(old(Chat()), UserCard(msgId, message, now))), Question(msgId, message))
    {
      SetChat(Appended(Chat(), UserCard(msgId, message, now)));
      AddQuestionToNav(Question(msgId, message));
    }

    /** The first steps of sendMessage once the input is accepted. */
    method BeginSend()
      requires Valid()
      modifies this
      ensures Valid() && State() == SendStarted(old(State()))
    {
      SetChat(WithoutWelcome(Chat()));
      SetScrolledUp(false);
      SetPopups(HideAgents(agentPopup), HideFiles(filePopup));
    }

    /** The routing agent set from a mention, with its switch card. */
    method SwitchAgent(a: AgentInfo)
      requires Valid()
      modifies this
      ensures Valid() && State() == Switched(old(State()), a)
    {
      SetRouting(Some(a));
      SetChat(Appended(Chat(), SwitchCard(a.name, a.description)));
    }

    /** Processing starts: the send button gives way to the cancel button. */
    method StartProcessing()
      requires Valid()
      modifies this
      ensures Valid() && State() == ButtonsUpdated(old(State()).(isProcessing := true))
    {
      SetProcessing(true);
      UpdateSendButtonState();
    }

    /** The input emptied and the client waiting for the reply. */
    method AwaitReply()
      requires Valid()
      modifies this
      ensures Valid() && State() == Waiting(old(State()))
    {
      ghost var s0 := State();
      SetInput(TextArea("", 0));
      HandleInputChange();
      ghost var s1 := State();
      assert s1 == InputChanged(s0.(input := TextArea("", 0)));
      StartProcessing();
      assert State() == ButtonsUpdated(s1.(isProcessing := true));
    }

    /** The user card, the chat frame built from the routing state, and the input reset. */
    method PostMessage(message: string, filePaths: seq<string>, now: string, msgId: string) returns (payload: Option<Payload>)
      requires Valid() && filePaths == HashPaths(message)
      modifies this
      ensures Valid() && (State(), payload) == Posted(old(State()), message, now, msgId)
    {
      var agentName := None;
      if currentAgent.Some? {
        agentName := Some(currentAgent.value.name);
      }
      var paths := None;
      if |filePaths| > 0 {
        paths := Some(filePaths);
      }
      var frame := Payload("chat", sessionId, message, mode, agentName, paths);
      AddUserMessage(message, now, msgId);
      payload := Some(frame);
      AwaitReply();
    }

    /** sendMessage: the chat frame it sends, if any. */
    method SendMessage(now: string, msgId: string) returns (payload: Option<Payload>)
      requires Valid()
      modifies this
      ensures Valid() && (State(), payload) == Send(old(State()), now, msgId)
    {
      var message := Trim(input.value);
      if message == "" || isProcessing {
        return None;
      }
      BeginSend();
      var mention := ExtractAgentMention(message);
      var filePaths := ExtractFilePaths(message);
      if mention.Some? {
        var agent := FindAgent(agents, mention.value.agentName);
        if agent.None? {
          ShowNotification("未找到智能体: " + mention.value.agentName, "error");
          return None;
        }
        SwitchAgent(agent.value);
      }
      payload := PostMessage(message, filePaths, now, msgId);
    }

    /** handleInputForMention with the listing of a `#partial`'s directory. */
    method HandleInputForMention(listing: seq<FileEntry>)
      requires Valid()
      modifies this
      ensures Valid() && State() == MentionLists(old(State()), listing)
    {
      ghost var s0 := State();
      var before := input.value[..input.cursor];
      var atSearch := AtSearch(before);
      var a, f := HideAgents(agentPopup), HideFiles(filePopup);
      if atSearch.Some? {
        a := ShowAgents(agentPopup, agents, atSearch.value);
      } else {
        var hashMatch := HashMatch(before);
        if hashMatch.Some? {
          f := ShowFiles(filePopup, listing, before[hashMatch.value + 1..]);
        }
      }
      assert MentionLists(s0, listing) == s0.(agentPopup := a, filePopup := f);
      SetPopups(a, f);
    }

    /** The input event with the new text and cursor, and the listing of a `#partial`'s directory. */
    method HandleInput(value: string, cursor: nat, listing: seq<FileEntry>)
      requires Valid() && cursor <= |value|
      modifies this
      ensures Valid() && State() == Typed(old(State()), value, cursor, listing)
    {
      SetInput(TextArea(value, cursor));
      HandleInputChange();
      HandleInputForMention(listing);
    }

    /** insertFileMention */
    method CompleteFilePath(path: string)
      requires Valid()
      modifies this
      ensures Valid() && State() == FilePathInserted(old(State()), path)
    {
      if HashMatch(input.value[..input.cursor]).Some? {
        SetInput(InsertFileMention(input, path));
        HandleInputChange();
      }
      SetFilePopup(HideFiles(filePopup));
    }

    /** insertAgentMention */
    method CompleteAgentName(name: string)
      requires Valid()
      modifies this
      ensures Valid() && State() == AgentNameInserted(old(State()), name)
    {
      if AtMatch(input.value[..input.cursor]).Some? {
        SetInput(InsertAgentMention(input, name));
        HandleInputChange();
      }
      SetAgentPopup(HideAgents(agentPopup));
    }

    /** The follow-up of a key the file list handled. */
    method FileKeyFollowUp(action: FileAction, listing: seq<FileEntry>)
      requires Valid()
      modifies this
      ensures Valid() && State() == FileActed(old(State()), action, listing)
    {
      match action {
        case NoAction =>
        case InsertPath(path) =>
          CompleteFilePath(path);
        case Browse(search) =>
          SetFilePopup(ShowFiles(filePopup, listing, search));
      }
    }

    /** handleKeyDown: the chat frame an Enter sends, if any. */
    method HandleKeyDown(key: Key, shift: bool, listing: seq<FileEntry>, now: string, msgId: string) returns (payload: Option<Payload>)
      requires Valid()
      modifies this
      ensures Valid() && (State(), payload) == KeyPressed(old(State()), key, shift, listing, now, msgId)
    {
      FileKeysValid(filePopup, key);
      AgentKeysValid(agentPopup, key);
      var fk := FileKeyDown(filePopup, key);
      if fk.handled {
        SetFilePopup(fk.popup);
        FileKeyFollowUp(fk.action, listing);
        return None;
      }
      var ak := AgentKeyDown(agentPopup, key);
      if ak.handled {
        SetAgentPopup(ak.popup);
        if ak.pick.Some? {
          CompleteAgentName(ak.pick.value);
        }
        return None;
      }
      payload := None;
      if key == Enter && !shift && sendEnabled {
        payload := SendMessage(now, msgId);
      }
    }
  }
}
