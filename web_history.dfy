/**
 * Replaying a saved conversation into the transcript (web/js/history.js):
 * each turn of the `history_loaded` event becomes cards, in turn order.
 * A user turn becomes one user card and one question of the navigator; an
 * agent turn with events becomes text cards split by tool calls, tool and
 * action cards; an agent turn of the older shape, without events, becomes
 * one text card followed by its tool calls and actions. Times are read
 * through the Clock parameter (Date parsing and toLocaleTimeString).
 */
module WebHistory {
  import opened GoStrings
  import opened JsStrings
  import opened Seqs
  import opened WebCards
  import opened WebNav

  datatype ToolCallRecord = ToolCallRecord(name: string, arguments: string, result: string)

  datatype ActionRecord = ActionRecord(actionType: string, content: string)

  /** One event of a saved turn; a field the record lacks is None or the empty text. */
  datatype TurnEvent =
    | TextEvent(content: string)
    | ToolCallEvent(call: Option<ToolCallRecord>)
    | ActionEvent(action: Option<ActionRecord>)
    | OtherEvent(kind: string)

  /** A saved turn; `startTime` and `endTime` are the saved time texts, empty when absent. */
  datatype Turn = Turn(
    agentName: string, startTime: string, endTime: string, events: seq<TurnEvent>,
    content: string, toolCalls: seq<ToolCallRecord>, actions: seq<ActionRecord>)

  /**
   * The clock: the current time text and milliseconds, Date parsing of a
   * time text (None for an invalid date) and the local time of day.
   */
  datatype Clock = Clock(now: string, nowMs: nat, parse: string -> Option<int>, timeOfDay: int -> string)

  const UserName := "用户"
  const NoArgs := "无参数"
  const InvalidDate := "Invalid Date"

  /** The start time as toLocaleTimeString shows it. */
  function StartText(start: string, c: Clock): string {
    match c.parse(start)
    case Some(t) => c.timeOfDay(t)
    case None => InvalidDate
  }

  /** The milliseconds from start to end, when both are present and valid. */
  function Duration(start: string, end: string, c: Clock): Option<int> {
    if end != "" && c.parse(start).Some? && c.parse(end).Some? then
      Some(c.parse(end).value - c.parse(start).value)
    else None
  }

  /** formatHistoryTime */
  function FormatHistoryTime(start: string, end: string, c: Clock): string {
    if start == "" then c.now
    else
      var timeStr := StartText(start, c);
      var d := Duration(start, end, c);
      if d.Some? && d.value > 0 then
        var seconds := d.value / 1000;
        var minutes := seconds / 60;
        if minutes > 0 then timeStr + " (" + Itoa(minutes) + "分" + Itoa(seconds % 60) + "秒)"
        else if seconds > 0 then timeStr + " (" + Itoa(seconds) + "秒)"
        else timeStr
      else timeStr
  }

  /**
   * The three shapes of a history time: a whole minute or more shows
   * minutes and the remaining seconds, a whole second or more shows the
   * seconds, anything shorter (or no duration) the bare start time; with
   * no start it is the current time.
   */
  lemma FormatHistoryTimeCases(start: string, end: string, c: Clock)
    ensures start == "" ==> FormatHistoryTime(start, end, c) == c.now
    ensures start != "" ==>
      var r := FormatHistoryTime(start, end, c);
      var t := StartText(start, c);
      var d := Duration(start, end, c);
      (d.Some? && d.value >= 60000 ==>
        r == t + " (" + Itoa(d.value / 60000) + "分" + Itoa(d.value / 1000 % 60) + "秒)"
        && (d.value / 60000) * 60 + d.value / 1000 % 60 == d.value / 1000 && d.value / 1000 % 60 < 60)
      && (d.Some? && 1000 <= d.value < 60000 ==> r == t + " (" + Itoa(d.value / 1000) + "秒)")
      && (d.None? || d.value < 1000 ==> r == t)
  {
    if start != "" {
      var d := Duration(start, end, c);
      if d.Some? && d.value > 0 {
        DivDiv(d.value);
      }
    }
  }

  lemma DivDiv(n: int)
    requires n > 0
    ensures n / 1000 / 60 == n / 60000
    ensures n / 1000 / 60 > 0 <==> n >= 60000
    ensures n / 1000 > 0 <==> n >= 1000
  {
    var q := n / 60000;
    var r := n % 60000;
    assert n == q * 60000 + r && 0 <= r < 60000;
    assert n / 1000 == q * 60 + r / 1000;
  }

  /** The arguments text of a replayed tool call: pretty JSON, the raw text, or 无参数 when empty. */
  function ArgsDisplay(arguments: string, json: Json): string {
    if arguments == "" then NoArgs else Pretty(json, arguments)
  }

  /** renderSingleToolCall: the call card, then a result card when there is a result. */
  function RenderToolCall(tc: ToolCallRecord, json: Json): (r: seq<Card>)
    ensures |r| == if tc.result != "" then 2 else 1
    ensures r[0] == ToolCallCard(tc.name, ArgsDisplay(tc.arguments, json))
    ensures tc.result != "" ==> r[1] == ToolResultCard(ToolResultText(tc.result, json))
  {
    [ToolCallCard(tc.name, ArgsDisplay(tc.arguments, json))]
    + (if tc.result != "" then [ToolResultCard(ToolResultText(tc.result, json))] else [])
  }

  /** The styling of a replayed action card; unlike the live one it knows `interrupted`. */
  function ReplayActionStyle(actionType: string): string {
    if actionType == "interrupted" then "interrupted" else LiveActionStyle(actionType)
  }

  /** renderSingleAction */
  function RenderAction(a: ActionRecord, agent: string): Card {
    ActionCard(ReplayActionStyle(a.actionType), agent, ActionText(a.content, a.actionType))
  }

  /** An interrupted action is styled on replay but not live. */
  lemma InterruptedStyledOnReplayOnly()
    ensures ReplayActionStyle("interrupted") == "interrupted" && LiveActionStyle("interrupted") == ""
    ensures forall t :: t != "interrupted" ==> ReplayActionStyle(t) == LiveActionStyle(t)
  {
  }

  /**
   * The replay of one turn's events: the cards so far, the card the text
   * goes into (`currentMessageEl`) and its text (`currentContent`).
   */
  datatype Replay = Replay(cards: seq<Card>, open: Option<nat>, text: string)

  predicate ReplayValid(r: Replay) {
    (r.open.Some? ==> r.open.value < |r.cards| && r.cards[r.open.value].AssistantCard?
                      && r.cards[r.open.value].raw == r.text)
    && (r.open.None? ==> r.text == "")
  }

  /**
   * The piece a text event adds. As written, replay adds it verbatim;
   * `trimFirst` applies the live rule of trimming while the text is empty.
   */
  function Piece(text: string, content: string, trimFirst: bool): string {
    if trimFirst && text == "" then TrimLeadingWhitespace(content) else content
  }

  /** One event of a turn. */
  function EventStep(r: Replay, e: TurnEvent, agent: string, time: string, json: Json, trimFirst: bool): (u: Replay)
    requires ReplayValid(r)
    ensures ReplayValid(u)
  {
    match e
    case TextEvent(content) =>
      var text := r.text + Piece(r.text, content, trimFirst);
      if r.open.None? then Replay(r.cards + [AssistantCard(agent, text, time, false)], Some(|r.cards|), text)
      else Replay(r.cards[r.open.value := r.cards[r.open.value].(raw := text, waiting := false)], r.open, text)
    case ToolCallEvent(call) =>
      Replay(r.cards + (if call.Some? then RenderToolCall(call.value, json) else []), None, "")
    case ActionEvent(action) =>
      r.(cards := r.cards + (if action.Some? then [RenderAction(action.value, agent)] else []))
    case OtherEvent(_) => r
  }

  /**
   * The per-event rules: text goes into the open card or, when there is
   * none, into a new one; a tool call is rendered and ends the open card,
   * so the next text opens a new one; an action is rendered and keeps the
   * open card; any other event is ignored.
   */
  lemma EventRules(r: Replay, e: TurnEvent, agent: string, time: string, json: Json, trimFirst: bool)
    requires ReplayValid(r)
    ensures var u := EventStep(r, e, agent, time, json, trimFirst);
      (e.TextEvent? ==> u.open.Some? && u.text == r.text + Piece(r.text, e.content, trimFirst)
                         && |u.cards| == |r.cards| + (if r.open.None? then 1 else 0))
      && (e.ToolCallEvent? ==> u.open.None? && u.text == "" && |u.cards| >= |r.cards|
                               && u.cards[..|r.cards|] == r.cards)
      && (e.ActionEvent? ==> u.open == r.open && u.text == r.text && u.cards[..|r.cards|] == r.cards)
      && (e.OtherEvent? ==> u == r)
  {
    var u := EventStep(r, e, agent, time, json, trimFirst);
    if e.ToolCallEvent? || e.ActionEvent? {
      assert u.cards[..|r.cards|] == r.cards;
    }
  }

  /** The events of a turn in order. */
  function ReplayEvents(r: Replay, evts: seq<TurnEvent>, agent: string, time: string, json: Json, trimFirst: bool): (u: Replay)
    requires ReplayValid(r)
    ensures ReplayValid(u)
    decreases |evts|
  {
    if |evts| == 0 then r
    else EventStep(ReplayEvents(r, evts[..|evts| - 1], agent, time, json, trimFirst), evts[|evts| - 1], agent, time, json, trimFirst)
  }

  /** The text of the text events, in order. */
  function Texts(evts: seq<TurnEvent>): string {
    if |evts| == 0 then ""
    else Texts(evts[..|evts| - 1]) + (if evts[|evts| - 1].TextEvent? then evts[|evts| - 1].content else "")
  }

  predicate AllText(evts: seq<TurnEvent>) {
    forall i :: 0 <= i < |evts| ==> evts[i].TextEvent?
  }

  /**
   * Text events with no tool call among them accumulate into one new
   * card created on the first of them; it shows their concatenation, with
   * leading blanks removed only under the live rule.
   */
  lemma {:induction false} TextRunOneCard(cards: seq<Card>, evts: seq<TurnEvent>, agent: string, time: string, json: Json, trimFirst: bool)
    requires AllText(evts) && |evts| > 0
    ensures var u := ReplayEvents(Replay(cards, None, ""), evts, agent, time, json, trimFirst);
      u.cards == cards + [AssistantCard(agent, u.text, time, false)] && u.open == Some(|cards|)
      && u.text == if trimFirst then TrimLeadingWhitespace(Texts(evts)) else Texts(evts)
    decreases |evts|
  {
    var init := evts[..|evts| - 1];
    var last := evts[|evts| - 1];
    var start := Replay(cards, None, "");
    var v := ReplayEvents(start, init, agent, time, json, trimFirst);
    assert last.TextEvent?;
    assert Texts(evts) == Texts(init) + last.content;
    assert last == TextEvent(last.content);
    if |init| == 0 {
      assert v == start;
      assert Texts(init) == "";
      assert ReplayEvents(start, evts, agent, time, json, trimFirst) == EventStep(start, last, agent, time, json, trimFirst);
      assert Texts(evts) == last.content;
      assert "" + Piece("", last.content, trimFirst) == Piece("", last.content, trimFirst);
    } else {
      assert AllText(init) by {
        assert forall i :: 0 <= i < |init| ==> init[i] == evts[i];
      }
      TextRunOneCard(cards, init, agent, time, json, trimFirst);
      assert ReplayEvents(start, evts, agent, time, json, trimFirst) == EventStep(v, last, agent, time, json, trimFirst);
      TextIntoOpenCard(cards, v, last.content, agent, time, json, trimFirst);
      var text := v.text + Piece(v.text, last.content, trimFirst);
      if trimFirst {
        TrimStartAppend(Texts(init), last.content, IsLeadingBlank);
        assert text == TrimLeadingWhitespace(Texts(evts));
      } else {
        assert text == Texts(evts);
      }
    }
  }

  /** A text event while the card at the end is open extends that card. */
  lemma TextIntoOpenCard(cards: seq<Card>, v: Replay, content: string, agent: string, time: string, json: Json, trimFirst: bool)
    requires v.cards == cards + [AssistantCard(agent, v.text, time, false)] && v.open == Some(|cards|)
    ensures ReplayValid(v)
    ensures var text := v.text + Piece(v.text, content, trimFirst);
      EventStep(v, TextEvent(content), agent, time, json, trimFirst)
        == Replay(cards + [AssistantCard(agent, text, time, false)], Some(|cards|), text)
  {
    var text := v.text + Piece(v.text, content, trimFirst);
    assert v.cards[|cards| := v.cards[|cards|].(raw := text, waiting := false)]
        == cards + [AssistantCard(agent, text, time, false)];
  }

  /** The older turn shape: tool cards of all calls, in order. */
  function ToolCards(tcs: seq<ToolCallRecord>, json: Json): (r: seq<Card>)
    ensures |r| >= |tcs|
    ensures forall i :: 0 <= i < |r| ==> r[i].ToolCallCard? || r[i].ToolResultCard?
  {
    if |tcs| == 0 then [] else ToolCards(tcs[..|tcs| - 1], json) + RenderToolCall(tcs[|tcs| - 1], json)
  }

  /** The number of cards of a kind. */
  function CountCalls(cards: seq<Card>): nat {
    if |cards| == 0 then 0 else CountCalls(cards[..|cards| - 1]) + (if cards[|cards| - 1].ToolCallCard? then 1 else 0)
  }

  function ResultCount(tcs: seq<ToolCallRecord>): nat {
    if |tcs| == 0 then 0 else ResultCount(tcs[..|tcs| - 1]) + (if tcs[|tcs| - 1].result != "" then 1 else 0)
  }

  lemma {:induction false} CountCallsAppend(a: seq<Card>, b: seq<Card>)
    ensures CountCalls(a + b) == CountCalls(a) + CountCalls(b)
    decreases |b|
  {
    if |b| == 0 {
      assert a + b == a;
    } else {
      assert (a + b)[..|a + b| - 1] == a + b[..|b| - 1];
      CountCallsAppend(a, b[..|b| - 1]);
    }
  }

  /** One call card per tool call and one result card per non-empty result. */
  lemma {:induction false} ToolCardsCount(tcs: seq<ToolCallRecord>, json: Json)
    ensures CountCalls(ToolCards(tcs, json)) == |tcs|
    ensures |ToolCards(tcs, json)| == |tcs| + ResultCount(tcs)
    decreases |tcs|
  {
    if |tcs| > 0 {
      var tc := tcs[|tcs| - 1];
      ToolCardsCount(tcs[..|tcs| - 1], json);
      CountCallsAppend(ToolCards(tcs[..|tcs| - 1], json), RenderToolCall(tc, json));
      var rc := RenderToolCall(tc, json);
      if tc.result != "" {
        assert rc == [rc[0]] + [rc[1]];
        assert rc[..1] == [rc[0]];
        CountCallsAppend([rc[0]], [rc[1]]);
        assert CountCalls([rc[1]]) == 0 by { assert [rc[1]][..0] == []; }
        assert CountCalls([rc[0]]) == 1 by { assert [rc[0]][..0] == []; }
      } else {
        assert rc[..0] == [];
      }
    }
  }

  /** The older turn shape: one action card per action, in order. */
  function ActionCards(actions: seq<ActionRecord>, agent: string): (r: seq<Card>)
    ensures |r| == |actions|
    ensures forall i :: 0 <= i < |r| ==> r[i] == RenderAction(actions[i], agent)
  {
    if |actions| == 0 then [] else ActionCards(actions[..|actions| - 1], agent) + [RenderAction(actions[|actions| - 1], agent)]
  }

  /** The cards of an agent turn of the older shape. */
  function LegacyCards(turn: Turn, time: string, json: Json): seq<Card> {
    [AssistantCard(turn.agentName, turn.content, time, turn.content == "")]
    + ToolCards(turn.toolCalls, json) + ActionCards(turn.actions, turn.agentName)
  }

  /**
   * An older-shape turn: first the text card (its streaming indicator stays
   * when the content is empty), then one call card per tool call with its
   * result, then one action card per action; nothing else.
   */
  lemma LegacyOrder(turn: Turn, time: string, json: Json)
    ensures var r := LegacyCards(turn, time, json);
      var n := 1 + |turn.toolCalls| + ResultCount(turn.toolCalls);
      |r| == n + |turn.actions|
      && r[0] == AssistantCard(turn.agentName, turn.content, time, turn.content == "")
      && CountCalls(r[1..n]) == |turn.toolCalls|
      && forall i :: 0 <= i < |turn.actions| ==> r[n + i] == RenderAction(turn.actions[i], turn.agentName)
  {
    var r := LegacyCards(turn, time, json);
    var tc := ToolCards(turn.toolCalls, json);
    ToolCardsCount(turn.toolCalls, json);
    assert r[1..1 + |tc|] == tc;
  }

  /** The cards of an agent turn: its events, or the older shape when it has none. */
  function TurnCards(turn: Turn, cards: seq<Card>, c: Clock, json: Json, trimFirst: bool): seq<Card> {
    var time := FormatHistoryTime(turn.startTime, turn.endTime, c);
    if |turn.events| > 0 then ReplayEvents(Replay(cards, None, ""), turn.events, turn.agentName, time, json, trimFirst).cards
    else cards + LegacyCards(turn, time, json)
  }

  /** An agent turn replayed as history.js does it: text pieces are added verbatim. */
  function ReplayTurnAsWritten(turn: Turn, cards: seq<Card>, c: Clock, json: Json): seq<Card> {
    TurnCards(turn, cards, c, json, false)
  }

  /** An agent turn replayed under the live rule: leading blanks are trimmed while the card is empty. */
  function ReplayTurn(turn: Turn, cards: seq<Card>, c: Clock, json: Json): seq<Card> {
    TurnCards(turn, cards, c, json, true)
  }

  /**
   * The as-written replay keeps leading blanks the live stream removes:
   * a turn whose one text event is `" hi"` shows `" hi"` on replay, while
   * the same text streamed live shows `"hi"`.
   */
  lemma ReplayKeepsLeadingBlank(c: Clock, json: Json)
    ensures var turn := Turn("a", "", "", [TextEvent(" hi")], "", [], []);
      var replayed := ReplayTurnAsWritten(turn, [], c, json);
      var live := Streamed(Transcript([], None, false), "a", [" hi"], c.now);
      |replayed| == 1 && replayed[0].raw == " hi"
      && |live.cards| == 1 && live.cards[0].raw == "hi"
  {
    var evts := [TextEvent(" hi")];
    TextRunOneCard([], evts, "a", c.now, json, false);
    assert Texts(evts) == Texts(evts[..0]) + " hi";
    assert Texts(evts[..0]) == "";
    assert "" + " hi" == " hi";
    StreamedText(Transcript([], None, false), "a", [" hi"], c.now);
    assert Concat([" hi"]) == Concat([" hi"][..0]) + " hi";
    assert Concat([" hi"][..0]) == "";
    TrimSpaceH();
  }

  lemma TrimSpaceH()
    ensures TrimLeadingWhitespace(" hi") == "hi"
  {
    assert !IsLeadingBlank('h');
    assert " hi"[1..] == "hi";
  }

  /**
   * The corrected replay agrees with the live stream: an agent turn of
   * text events shows, in its one card, exactly the text the same chunks
   * leave in the live card.
   */
  lemma ReplayMatchesLive(turn: Turn, cards: seq<Card>, c: Clock, json: Json)
    requires turn.agentName != UserName && AllText(turn.events) && |turn.events| > 0
    requires forall i :: 0 < i < |cards| ==> !cards[i].Welcome?
    ensures var replayed := ReplayTurn(turn, cards, c, json);
      var live := Streamed(Transcript(cards, None, false), turn.agentName, Contents(turn.events), c.now);
      |replayed| == |cards| + 1 == |live.cards| && replayed[..|cards|] == cards == live.cards[..|cards|]
      && replayed[|cards|].AssistantCard? && live.cards[|cards|].AssistantCard?
      && replayed[|cards|].agent == live.cards[|cards|].agent == turn.agentName
      && replayed[|cards|].raw == live.cards[|cards|].raw
      && !replayed[|cards|].waiting && !live.cards[|cards|].waiting
  {
    var time := FormatHistoryTime(turn.startTime, turn.endTime, c);
    TextRunOneCard(cards, turn.events, turn.agentName, time, json, true);
    ContentsTexts(turn.events);
    StreamedText(Transcript(cards, None, false), turn.agentName, Contents(turn.events), c.now);
    var replayed := ReplayTurn(turn, cards, c, json);
    assert replayed[..|cards|] == cards;
  }

  /** The texts of text events as a list of chunks. */
  function Contents(evts: seq<TurnEvent>): (r: seq<string>)
    ensures |r| == |evts|
  {
    if |evts| == 0 then [] else Contents(evts[..|evts| - 1]) + [if evts[|evts| - 1].TextEvent? then evts[|evts| - 1].content else ""]
  }

  lemma {:induction false} ContentsTexts(evts: seq<TurnEvent>)
    ensures Concat(Contents(evts)) == Texts(evts)
    decreases |evts|
  {
    if |evts| > 0 {
      ContentsTexts(evts[..|evts| - 1]);
      assert Contents(evts)[..|evts| - 1] == Contents(evts[..|evts| - 1]);
    }
  }

  /** A user turn's card: its id is the start time (or the current milliseconds), its text the turn's texts. */
  function UserTurnCard(turn: Turn, c: Clock): Card {
    UserCard(QuestionId(turn, c), Texts(turn.events), FormatHistoryTime(turn.startTime, "", c))
  }

  function QuestionId(turn: Turn, c: Clock): string {
    "msg-" + (if turn.startTime != "" then turn.startTime else Itoa(c.nowMs))
  }

  /** The transcript and the questions rebuilt from history. */
  datatype Loaded = Loaded(cards: seq<Card>, questions: seq<Question>)

  /** One turn of the history. */
  function LoadStep(l: Loaded, turn: Turn, c: Clock, json: Json, trimFirst: bool): Loaded {
    if turn.agentName == UserName then
      if Texts(turn.events) == "" then l
      else Loaded(l.cards + [UserTurnCard(turn, c)], l.questions + [Question(QuestionId(turn, c), Texts(turn.events))])
    else Loaded(TurnCards(turn, l.cards, c, json, trimFirst), l.questions)
  }

  /** The replay of all turns into an emptied transcript. */
  function LoadAll(turns: seq<Turn>, c: Clock, json: Json, trimFirst: bool): Loaded
    decreases |turns|
  {
    if |turns| == 0 then Loaded([], [])
    else LoadStep(LoadAll(turns[..|turns| - 1], c, json, trimFirst), turns[|turns| - 1], c, json, trimFirst)
  }

  /**
   * A user turn gives one user card and one question exactly when its
   * texts are not empty, and otherwise nothing; a user turn of the older
   * shape, with no events, therefore shows nothing.
   */
  lemma UserTurnRule(l: Loaded, turn: Turn, c: Clock, json: Json, trimFirst: bool)
    requires turn.agentName == UserName
    ensures var u := LoadStep(l, turn, c, json, trimFirst);
      (Texts(turn.events) != "" <==> |u.cards| == |l.cards| + 1)
      && (Texts(turn.events) != "" ==>
            u.cards == l.cards + [UserCard(QuestionId(turn, c), Texts(turn.events), FormatHistoryTime(turn.startTime, "", c))]
            && u.questions == l.questions + [Question(QuestionId(turn, c), Texts(turn.events))])
      && (Texts(turn.events) == "" ==> u == l)
    ensures |turn.events| == 0 ==> LoadStep(l, turn, c, json, trimFirst) == l
  {
  }

  /** The cards of the replay keep a prefix and the open card lies past it. */
  predicate Extends(u: Replay, cards: seq<Card>) {
    |u.cards| >= |cards| && u.cards[..|cards|] == cards && (u.open.Some? ==> u.open.value >= |cards|)
  }

  /** An agent turn only appends cards: the cards of earlier turns are never changed. */
  lemma {:induction false} ReplayKeepsEarlier(cards: seq<Card>, evts: seq<TurnEvent>, agent: string, time: string, json: Json, trimFirst: bool)
    ensures Extends(ReplayEvents(Replay(cards, None, ""), evts, agent, time, json, trimFirst), cards)
    decreases |evts|
  {
    if |evts| > 0 {
      var v := ReplayEvents(Replay(cards, None, ""), evts[..|evts| - 1], agent, time, json, trimFirst);
      ReplayKeepsEarlier(cards, evts[..|evts| - 1], agent, time, json, trimFirst);
      var u := EventStep(v, evts[|evts| - 1], agent, time, json, trimFirst);
      assert u.cards[..|cards|] == v.cards[..|cards|];
    }
  }

  /** Every turn appends to the cards of the turns before it. */
  lemma TurnAppends(turn: Turn, cards: seq<Card>, c: Clock, json: Json, trimFirst: bool)
    ensures var r := TurnCards(turn, cards, c, json, trimFirst);
      |r| >= |cards| && r[..|cards|] == cards
  {
    if |turn.events| > 0 {
      ReplayKeepsEarlier(cards, turn.events, turn.agentName, FormatHistoryTime(turn.startTime, turn.endTime, c), json, trimFirst);
    } else {
      var r := TurnCards(turn, cards, c, json, trimFirst);
      assert r[..|cards|] == cards;
    }
  }

  /** No card is the welcome. */
  predicate NoWelcome(cards: seq<Card>) {
    forall i :: 0 <= i < |cards| ==> !cards[i].Welcome?
  }

  /** An event of a turn adds no welcome card. */
  lemma EventNoWelcome(r: Replay, e: TurnEvent, agent: string, time: string, json: Json, trimFirst: bool)
    requires ReplayValid(r) && NoWelcome(r.cards)
    ensures NoWelcome(EventStep(r, e, agent, time, json, trimFirst).cards)
  {
    var u := EventStep(r, e, agent, time, json, trimFirst);
    forall i | 0 <= i < |u.cards| ensures !u.cards[i].Welcome? {
      if i >= |r.cards| {
        match e
        case TextEvent(_) =>
        case ToolCallEvent(call) =>
          if call.Some? {
            assert u.cards[i] == RenderToolCall(call.value, json)[i - |r.cards|];
          }
        case ActionEvent(action) =>
        case OtherEvent(_) =>
      }
    }
  }

  lemma {:induction false} ReplayNoWelcome(r: Replay, evts: seq<TurnEvent>, agent: string, time: string, json: Json, trimFirst: bool)
    requires ReplayValid(r) && NoWelcome(r.cards)
    ensures NoWelcome(ReplayEvents(r, evts, agent, time, json, trimFirst).cards)
    decreases |evts|
  {
    if |evts| > 0 {
      ReplayNoWelcome(r, evts[..|evts| - 1], agent, time, json, trimFirst);
      EventNoWelcome(ReplayEvents(r, evts[..|evts| - 1], agent, time, json, trimFirst), evts[|evts| - 1], agent, time, json, trimFirst);
    }
  }

  /** Replaying a history never brings the welcome card back. */
  lemma {:induction false} LoadAllNoWelcome(turns: seq<Turn>, c: Clock, json: Json, trimFirst: bool)
    ensures NoWelcome(LoadAll(turns, c, json, trimFirst).cards)
    decreases |turns|
  {
    if |turns| > 0 {
      var l := LoadAll(turns[..|turns| - 1], c, json, trimFirst);
      var turn := turns[|turns| - 1];
      LoadAllNoWelcome(turns[..|turns| - 1], c, json, trimFirst);
      var u := LoadStep(l, turn, c, json, trimFirst);
      if turn.agentName != UserName {
        var time := FormatHistoryTime(turn.startTime, turn.endTime, c);
        if |turn.events| > 0 {
          ReplayNoWelcome(Replay(l.cards, None, ""), turn.events, turn.agentName, time, json, trimFirst);
        } else {
          var lc := LegacyCards(turn, time, json);
          var tc := ToolCards(turn.toolCalls, json);
          var ac := ActionCards(turn.actions, turn.agentName);
          assert lc == [lc[0]] + tc + ac;
          forall i | 0 <= i < |u.cards| ensures !u.cards[i].Welcome? {
            if i >= |l.cards| + 1 + |tc| {
              assert u.cards[i] == ac[i - |l.cards| - 1 - |tc|];
            } else if i > |l.cards| {
              assert u.cards[i] == tc[i - |l.cards| - 1];
            }
          }
        }
      }
    }
  }

  /** One entry of the history file list; `modTime` is the parsed modification time. */
  datatype HistoryFile = HistoryFile(filename: string, displayName: string, modTime: int, size: int)

  /** Inserts a file after every file at least as recent. */
  function InsertByTime(f: HistoryFile, s: seq<HistoryFile>): (r: seq<HistoryFile>)
    ensures multiset(r) == multiset(s) + multiset{f}
    ensures |r| == |s| + 1
  {
    if |s| == 0 then [f]
    else if s[0].modTime >= f.modTime then
      assert s == [s[0]] + s[1..];
      [s[0]] + InsertByTime(f, s[1..])
    else [f] + s
  }

  predicate NewestFirst(s: seq<HistoryFile>) {
    forall i, j :: 0 <= i < j < |s| ==> s[i].modTime >= s[j].modTime
  }

  /** The files sorted by modification time, newest first. */
  function SortByTime(files: seq<HistoryFile>): (r: seq<HistoryFile>)
    ensures multiset(r) == multiset(files)
    decreases |files|
  {
    if |files| == 0 then []
    else
      assert files == files[..|files| - 1] + [files[|files| - 1]];
      InsertByTime(files[|files| - 1], SortByTime(files[..|files| - 1]))
  }

  lemma {:induction false} InsertKeepsOrder(f: HistoryFile, s: seq<HistoryFile>)
    requires NewestFirst(s)
    ensures NewestFirst(InsertByTime(f, s))
    ensures |s| > 0 ==> InsertByTime(f, s)[0] == (if s[0].modTime >= f.modTime then s[0] else f)
    decreases |s|
  {
    if |s| > 0 && s[0].modTime >= f.modTime {
      InsertKeepsOrder(f, s[1..]);
      var t := InsertByTime(f, s[1..]);
      assert forall k :: 0 <= k < |t| ==> t[k] == f || t[k] in s[1..] by {
        forall k | 0 <= k < |t| ensures t[k] == f || t[k] in s[1..] {
          assert t[k] in multiset(t);
        }
      }
      forall k | 0 <= k < |t| ensures s[0].modTime >= t[k].modTime {
        if t[k] != f {
          var m :| 0 <= m < |s[1..]| && s[1..][m] == t[k];
          assert s[1 + m] == t[k];
        }
      }
    }
  }

  /** The history list is sorted newest first and lists every file exactly as often as given. */
  lemma {:induction false} SortByTimeSorted(files: seq<HistoryFile>)
    ensures NewestFirst(SortByTime(files))
    ensures multiset(SortByTime(files)) == multiset(files)
    decreases |files|
  {
    if |files| > 0 {
      SortByTimeSorted(files[..|files| - 1]);
      InsertKeepsOrder(files[|files| - 1], SortByTime(files[..|files| - 1]));
    }
  }

  /** What the history list shows: the empty notice, or the sorted files. */
  datatype HistoryList = EmptyHistory | Listed(files: seq<HistoryFile>)

  /** renderHistoryList */
  function RenderHistoryList(files: seq<HistoryFile>): (r: HistoryList)
    ensures r.EmptyHistory? <==> |files| == 0
    ensures r.Listed? ==> NewestFirst(r.files) && multiset(r.files) == multiset(files)
  {
    SortByTimeSorted(files);
    if |files| == 0 then EmptyHistory else Listed(SortByTime(files))
  }
}
