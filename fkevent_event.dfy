/**
 * fkevent/event.go: how one agent event of the runtime becomes the events
 * of the socket and history taxonomy (error, message, tool_result,
 * stream_chunk, tool_result_chunk, tool_calls_preparing, tool_calls,
 * action).
 *
 * Every emitted event goes to a callback that may fail; processing stops
 * at the first failure and returns it. The callback is the parameter
 * `deliver` (printing, when no callback is bound, is a callback that never
 * fails). The model first says which steps an agent event calls for (a
 * plan), and then how delivery runs a plan.
 */
module FkEvent {
  import opened GoStrings

  datatype ToolCall = ToolCall(id: string, index: Option<int>, name: string, arguments: string)

  datatype Event = Event(kind: string, agentName: string, runPath: string, content: string,
                         toolCalls: seq<ToolCall>, actionType: string, error: string)

  datatype Role = System | User | Assistant | Tool

  /** schema.Message, as far as the event mapping reads it. */
  datatype Chunk = Chunk(role: Role, content: string, toolCalls: seq<ToolCall>)

  /** One Recv of a message stream; the end of the list is io.EOF. */
  datatype StreamItem = Received(chunk: Chunk) | RecvFailed(err: string)

  datatype MessageOutput = MessageOutput(message: Option<Chunk>, stream: Option<seq<StreamItem>>)

  /** Interrupt contexts are given by their formatted info. */
  datatype Action = Action(transferTo: Option<string>, interrupted: Option<seq<string>>, exit: bool)

  /** The runtime's agent event; the run path is given already formatted. */
  datatype AgentEvent = AgentEvent(agentName: string, runPath: string, err: Option<string>,
                                   output: Option<MessageOutput>, action: Option<Action>)

  /** The result of merging one index's tool-call fragments (eino's schema.ConcatMessages). */
  datatype Merge = Merged(toolCalls: seq<ToolCall>) | MergeFailed(err: string)

  // ---------------------------------------------------------------------
  // Plans and their delivery

  datatype Step = Emit(event: Event) | Fail(err: string)

  datatype Delivery = Delivery(sent: seq<Event>, err: Option<string>)

  /** Deliver a plan's events in order, stopping at the first failing callback or failed step. */
  function Run(plan: seq<Step>, deliver: Event -> Option<string>): (d: Delivery)
    ensures |d.sent| <= |plan|
  {
    if |plan| == 0 then Delivery([], None)
    else match plan[0]
      case Fail(e) => Delivery([], Some(e))
      case Emit(ev) =>
        if deliver(ev).Some? then Delivery([ev], deliver(ev))
        else var rest := Run(plan[1..], deliver); Delivery([ev] + rest.sent, rest.err)
  }

  /** Delivering two plans one after the other. */
  lemma {:induction false} RunAppend(a: seq<Step>, b: seq<Step>, deliver: Event -> Option<string>)
    ensures Run(a + b, deliver) ==
            if Run(a, deliver).err.Some? then Run(a, deliver)
            else Delivery(Run(a, deliver).sent + Run(b, deliver).sent, Run(b, deliver).err)
  {
    if |a| > 0 {
      assert (a + b)[0] == a[0];
      assert (a + b)[1..] == a[1..] + b;
      RunAppend(a[1..], b, deliver);
      if a[0].Emit? && deliver(a[0].event).None? {
        assert [a[0].event] + Run(a[1..], deliver).sent + Run(b, deliver).sent
            == [a[0].event] + (Run(a[1..], deliver).sent + Run(b, deliver).sent);
      }
    } else {
      assert a + b == b;
    }
  }

  /** Once a plan's delivery has failed, what follows it is never delivered. */
  lemma RunStopped(a: seq<Step>, b: seq<Step>, deliver: Event -> Option<string>)
    requires |a| <= |b| && b[..|a|] == a && Run(a, deliver).err.Some?
    ensures Run(b, deliver) == Run(a, deliver)
  {
    assert b == a + b[|a|..];
    RunAppend(a, b[|a|..], deliver);
  }

  lemma RunOne(ev: Event, deliver: Event -> Option<string>)
    ensures Run([Emit(ev)], deliver) == Delivery([ev], deliver(ev))
  {
    assert [Emit(ev)][1..] == [];
  }

  // ---------------------------------------------------------------------
  // The events

  function ErrorEvent(agent: string, path: string, msg: string): Event {
    Event("error", agent, path, "", [], "", msg)
  }

  /** handleRegularMessage */
  function RegularEvent(agent: string, path: string, m: Chunk): (e: Event)
    ensures e.kind == (if m.role == Tool then "tool_result" else "message")
    ensures e.content == m.content && e.toolCalls == m.toolCalls
  {
    Event(if m.role == Tool then "tool_result" else "message", agent, path, m.content, m.toolCalls, "", "")
  }

  /** The event a non-empty stream chunk gives. */
  function ContentEvent(agent: string, path: string, c: Chunk): (e: Event)
    ensures e.kind == (if c.role == Tool then "tool_result_chunk" else "stream_chunk")
  {
    Event(if c.role == Tool then "tool_result_chunk" else "stream_chunk", agent, path, c.content, [], "", "")
  }

  /** The announcement of a tool call, carrying only its name. */
  function PreparingEvent(agent: string, path: string, name: string): Event {
    Event("tool_calls_preparing", agent, path, "", [ToolCall("", None, name, "")], "", "")
  }

  function ToolCallsEvent(agent: string, path: string, tcs: seq<ToolCall>): Event {
    Event("tool_calls", agent, path, "", tcs, "", "")
  }

  function ActionEvent(agent: string, path: string, kind: string, content: string): Event {
    Event("action", agent, path, content, [], kind, "")
  }

  // ---------------------------------------------------------------------
  // The stream

  datatype Prep = Prep(plan: seq<Step>, started: set<int>)

  /** One fragment's announcement: the first named fragment of an index announces it. */
  function Announce(agent: string, path: string, p: Prep, tc: ToolCall): Prep {
    if tc.index.Some? && tc.index.value !in p.started && tc.name != "" then
      Prep(p.plan + [Emit(PreparingEvent(agent, path, tc.name))], p.started + {tc.index.value})
    else p
  }

  /** The announcements for one chunk's tool calls. */
  function PreparePlan(agent: string, path: string, tcs: seq<ToolCall>, started: set<int>): Prep {
    if |tcs| == 0 then Prep([], started)
    else Announce(agent, path, PreparePlan(agent, path, tcs[..|tcs| - 1], started), tcs[|tcs| - 1])
  }

  /** One fragment kept under its index as a one-call message of the chunk's role. */
  function AddFragment(calls: map<int, seq<Chunk>>, role: Role, tc: ToolCall): map<int, seq<Chunk>> {
    if tc.index.Some? then
      calls[tc.index.value := (if tc.index.value in calls then calls[tc.index.value] else []) + [Chunk(role, "", [tc])]]
    else calls
  }

  /** The fragments of each index. */
  function Group(calls: map<int, seq<Chunk>>, role: Role, tcs: seq<ToolCall>): map<int, seq<Chunk>> {
    if |tcs| == 0 then calls
    else AddFragment(Group(calls, role, tcs[..|tcs| - 1]), role, tcs[|tcs| - 1])
  }

  /** The steps one received chunk calls for. */
  function ChunkPlan(agent: string, path: string, c: Chunk, started: set<int>): seq<Step> {
    (if c.content != "" then [Emit(ContentEvent(agent, path, c))] else [])
    + PreparePlan(agent, path, c.toolCalls, started).plan
  }

  datatype Walked = Walked(plan: seq<Step>, started: set<int>, calls: map<int, seq<Chunk>>, stopped: bool)

  /** The receive loop over the stream, up to io.EOF or the first receive error. */
  function Walk(agent: string, path: string, items: seq<StreamItem>): Walked {
    if |items| == 0 then Walked([], {}, map[], false)
    else
      var w := Walk(agent, path, items[..|items| - 1]);
      if w.stopped then w
      else match items[|items| - 1]
        case RecvFailed(e) => Walked(w.plan + [Emit(ErrorEvent(agent, path, "stream error: " + e))], w.started, w.calls, true)
        case Received(c) =>
          Walked(w.plan + ChunkPlan(agent, path, c, w.started),
                 PreparePlan(agent, path, c.toolCalls, w.started).started,
                 Group(w.calls, c.role, c.toolCalls), false)
  }

  lemma SomeElement(s: set<int>)
    ensures s == {} || exists y :: y in s
  {
    if forall y :: y !in s {
      assert s == {};
    }
  }

  /** The least element of a non-empty set, found by removing one element at a time. */
  lemma {:induction false} LeastOf(s: set<int>) returns (m: int)
    requires s != {}
    ensures m in s && forall x | x in s :: m <= x
    decreases |s|
  {
    SomeElement(s);
    var y :| y in s;
    if s == {y} {
      m := y;
    } else {
      var rest := s - {y};
      var k := LeastOf(rest);
      m := if y < k then y else k;
      forall x | x in s ensures m <= x {
        if x != y {
          assert x in rest;
        }
      }
    }
  }

  lemma MinExists(s: set<int>)
    requires s != {}
    ensures exists m :: m in s && forall x | x in s :: m <= x
  {
    var m := LeastOf(s);
  }

  function MinKey(s: set<int>): (m: int)
    requires s != {}
    ensures m in s && forall x | x in s :: m <= x
  {
    MinExists(s);
    var m :| m in s && forall x | x in s :: m <= x; m
  }

  /** A set of indices in ascending order (sort.Ints over the map's keys). */
  function AscendingKeys(s: set<int>): (r: seq<int>)
    ensures forall i | 0 <= i < |r| :: r[i] in s
    decreases |s|
  {
    if s == {} then [] else var m := MinKey(s); [m] + AscendingKeys(s - {m})
  }

  lemma {:induction false} AscendingKeysSpec(s: set<int>)
    ensures |AscendingKeys(s)| == |s|
    ensures forall x | x in s :: x in AscendingKeys(s)
    ensures forall i, j | 0 <= i < j < |AscendingKeys(s)| :: AscendingKeys(s)[i] < AscendingKeys(s)[j]
    decreases |s|
  {
    if s != {} {
      var m := MinKey(s);
      AscendingKeysSpec(s - {m});
      var r := AscendingKeys(s);
      assert r == [m] + AscendingKeys(s - {m});
      forall x | x in s ensures x in r {
        if x != m {
          assert x in AscendingKeys(s - {m});
        }
      }
      forall i, j | 0 <= i < j < |r| ensures r[i] < r[j] {
        if i == 0 {
          assert r[j] in s - {m};
        }
      }
    }
  }

  /** The step for one index after the stream ended: its merged tool calls, or the merge error. */
  function CallStep(agent: string, path: string, frags: seq<Chunk>, concat: seq<Chunk> -> Merge): Step {
    match concat(frags)
    case Merged(tcs) => Emit(ToolCallsEvent(agent, path, tcs))
    case MergeFailed(e) => Fail(e)
  }

  function CallsPlan(agent: string, path: string, idxs: seq<int>, calls: map<int, seq<Chunk>>,
                     concat: seq<Chunk> -> Merge): (p: seq<Step>)
    requires forall i | 0 <= i < |idxs| :: idxs[i] in calls
    ensures |p| == |idxs|
  {
    seq(|idxs|, i requires 0 <= i < |idxs| => CallStep(agent, path, calls[idxs[i]], concat))
  }

  /** handleStreamingMessage: the receive loop, then one step per tool-call index in ascending order. */
  function StreamPlan(agent: string, path: string, items: seq<StreamItem>, concat: seq<Chunk> -> Merge): seq<Step> {
    var w := Walk(agent, path, items);
    if w.stopped then w.plan
    else w.plan + CallsPlan(agent, path, AscendingKeys(w.calls.Keys), w.calls, concat)
  }

  // ---------------------------------------------------------------------
  // Growth of the plans

  predicate IsPrefix(a: seq<Step>, b: seq<Step>) {
    |a| <= |b| && b[..|a|] == a
  }

  lemma PrefixTrans(a: seq<Step>, b: seq<Step>, c: seq<Step>)
    requires IsPrefix(a, b) && IsPrefix(b, c)
    ensures IsPrefix(a, c)
  {
    assert c[..|a|] == c[..|b|][..|a|];
  }

  lemma PrefixAppend(a: seq<Step>, b: seq<Step>)
    ensures IsPrefix(a, a + b)
  {
    assert (a + b)[..|a|] == a;
  }

  lemma {:induction false} PreparePrefix(agent: string, path: string, tcs: seq<ToolCall>, j: nat, started: set<int>)
    requires j <= |tcs|
    ensures IsPrefix(PreparePlan(agent, path, tcs[..j], started).plan, PreparePlan(agent, path, tcs, started).plan)
    decreases |tcs|
  {
    if j < |tcs| {
      var init := tcs[..|tcs| - 1];
      assert init[..j] == tcs[..j];
      PreparePrefix(agent, path, init, j, started);
      PrefixAppend(PreparePlan(agent, path, init, started).plan, [Emit(PreparingEvent(agent, path, tcs[|tcs| - 1].name))]);
      PrefixTrans(PreparePlan(agent, path, tcs[..j], started).plan, PreparePlan(agent, path, init, started).plan,
                  PreparePlan(agent, path, tcs, started).plan);
    } else {
      assert tcs[..j] == tcs;
    }
  }

  lemma {:induction false} WalkPrefix(agent: string, path: string, items: seq<StreamItem>, k: nat)
    requires k <= |items|
    ensures IsPrefix(Walk(agent, path, items[..k]).plan, Walk(agent, path, items).plan)
    decreases |items|
  {
    if k < |items| {
      var init := items[..|items| - 1];
      assert init[..k] == items[..k];
      WalkPrefix(agent, path, init, k);
      var w := Walk(agent, path, init);
      if !w.stopped {
        PrefixAppend(w.plan, Walk(agent, path, items).plan[|w.plan|..]);
        assert Walk(agent, path, items).plan == w.plan + Walk(agent, path, items).plan[|w.plan|..];
      }
      PrefixTrans(Walk(agent, path, items[..k]).plan, w.plan, Walk(agent, path, items).plan);
    } else {
      assert items[..k] == items;
    }
  }

  lemma StreamPlanExtends(agent: string, path: string, items: seq<StreamItem>, concat: seq<Chunk> -> Merge)
    ensures IsPrefix(Walk(agent, path, items).plan, StreamPlan(agent, path, items, concat))
  {
    var w := Walk(agent, path, items);
    if !w.stopped {
      PrefixAppend(w.plan, CallsPlan(agent, path, AscendingKeys(w.calls.Keys), w.calls, concat));
    }
  }

  /** Once the receive loop has stopped, later items change nothing. */
  lemma {:induction false} WalkStoppedStays(agent: string, path: string, items: seq<StreamItem>, k: nat)
    requires k <= |items| && Walk(agent, path, items[..k]).stopped
    ensures Walk(agent, path, items) == Walk(agent, path, items[..k])
    decreases |items|
  {
    if k < |items| {
      var init := items[..|items| - 1];
      assert init[..k] == items[..k];
      WalkStoppedStays(agent, path, init, k);
    } else {
      assert items[..k] == items;
    }
  }

  lemma CallsPlanSnoc(agent: string, path: string, idxs: seq<int>, k: nat, calls: map<int, seq<Chunk>>,
                      concat: seq<Chunk> -> Merge)
    requires k < |idxs| && forall i | 0 <= i < |idxs| :: idxs[i] in calls
    ensures CallsPlan(agent, path, idxs[..k + 1], calls, concat)
            == CallsPlan(agent, path, idxs[..k], calls, concat) + [CallStep(agent, path, calls[idxs[k]], concat)]
    ensures IsPrefix(CallsPlan(agent, path, idxs[..k + 1], calls, concat), CallsPlan(agent, path, idxs, calls, concat))
  {
    var full := CallsPlan(agent, path, idxs, calls, concat);
    assert CallsPlan(agent, path, idxs[..k + 1], calls, concat) == full[..k + 1];
    assert CallsPlan(agent, path, idxs[..k], calls, concat) == full[..k];
  }

  // ---------------------------------------------------------------------
  // The loops

  /** The announcing and grouping loop over one chunk's tool calls. */
  method AnnounceCalls(agent: string, path: string, role: Role, tcs: seq<ToolCall>, started0: set<int>,
                       calls0: map<int, seq<Chunk>>, deliver: Event -> Option<string>)
    returns (sent: seq<Event>, started: set<int>, calls: map<int, seq<Chunk>>, err: Option<string>)
    ensures Run(PreparePlan(agent, path, tcs, started0).plan, deliver) == Delivery(sent, err)
    ensures err.None? ==> started == PreparePlan(agent, path, tcs, started0).started
                          && calls == Group(calls0, role, tcs)
  {
    sent, started, calls, err := [], started0, calls0, None;
    for j := 0 to |tcs|
      invariant PreparePlan(agent, path, tcs[..j], started0).started == started
      invariant Group(calls0, role, tcs[..j]) == calls
      invariant Run(PreparePlan(agent, path, tcs[..j], started0).plan, deliver) == Delivery(sent, None)
    {
      ghost var before := PreparePlan(agent, path, tcs[..j], started0);
      assert tcs[..j + 1][..j] == tcs[..j];
      var tc := tcs[j];
      assert PreparePlan(agent, path, tcs[..j + 1], started0) == Announce(agent, path, before, tc);
      assert Group(calls0, role, tcs[..j + 1]) == AddFragment(calls, role, tc);
      if tc.index.Some? && tc.index.value !in started && tc.name != "" {
        var ev := PreparingEvent(agent, path, tc.name);
        RunAppend(before.plan, [Emit(ev)], deliver);
        RunOne(ev, deliver);
        started := started + {tc.index.value};
        sent := sent + [ev];
        var r := deliver(ev);
        if r.Some? {
          err := r;
          PreparePrefix(agent, path, tcs, j + 1, started0);
          RunStopped(Announce(agent, path, before, tc).plan, PreparePlan(agent, path, tcs, started0).plan, deliver);
          return;
        }
      }
      calls := AddFragment(calls, role, tc);
    }
    assert tcs[..|tcs|] == tcs;
  }

  /** The body of the receive loop for one chunk: its text event, then its tool calls. */
  method HandleChunk(agent: string, path: string, c: Chunk, started0: set<int>, calls0: map<int, seq<Chunk>>,
                     deliver: Event -> Option<string>)
    returns (sent: seq<Event>, started: set<int>, calls: map<int, seq<Chunk>>, err: Option<string>)
    ensures Run(ChunkPlan(agent, path, c, started0), deliver) == Delivery(sent, err)
    ensures err.None? ==> started == PreparePlan(agent, path, c.toolCalls, started0).started
                          && calls == Group(calls0, c.role, c.toolCalls)
  {
    var text: seq<Event> := [];
    ghost var head: seq<Step> := [];
    var announced := PreparePlan(agent, path, c.toolCalls, started0).plan;
    if c.content != "" {
      var ev := ContentEvent(agent, path, c);
      head := [Emit(ev)];
      RunOne(ev, deliver);
      text := [ev];
      var r := deliver(ev);
      if r.Some? {
        sent, started, calls, err := text, started0, calls0, r;
        PrefixAppend(head, announced);
        RunStopped(head, ChunkPlan(agent, path, c, started0), deliver);
        return;
      }
    }
    assert ChunkPlan(agent, path, c, started0) == head + announced;
    var more;
    more, started, calls, err := AnnounceCalls(agent, path, c.role, c.toolCalls, started0, calls0, deliver);
    RunAppend(head, announced, deliver);
    sent := text + more;
  }

  /** The receive loop of handleStreamingMessage. */
  method ReceiveLoop(agent: string, path: string, items: seq<StreamItem>, deliver: Event -> Option<string>)
    returns (sent: seq<Event>, calls: map<int, seq<Chunk>>, stopped: bool, err: Option<string>)
    ensures Run(Walk(agent, path, items).plan, deliver) == Delivery(sent, err)
    ensures err.None? ==> stopped == Walk(agent, path, items).stopped && calls == Walk(agent, path, items).calls
  {
    var started: set<int> := {};
    sent, calls, stopped, err := [], map[], false, None;
    for i := 0 to |items|
      invariant Walk(agent, path, items[..i]) == Walked(Walk(agent, path, items[..i]).plan, started, calls, false)
      invariant Run(Walk(agent, path, items[..i]).plan, deliver) == Delivery(sent, None)
    {
      ghost var plan := Walk(agent, path, items[..i]).plan;
      assert items[..i + 1][..i] == items[..i];
      match items[i]
      case RecvFailed(e) =>
        var ev := ErrorEvent(agent, path, "stream error: " + e);
        RunAppend(plan, [Emit(ev)], deliver);
        RunOne(ev, deliver);
        WalkStoppedStays(agent, path, items, i + 1);
        sent, stopped, err := sent + [ev], true, deliver(ev);
        return;
      case Received(c) =>
        var more, started', calls', e := HandleChunk(agent, path, c, started, calls, deliver);
        RunAppend(plan, ChunkPlan(agent, path, c, started), deliver);
        sent := sent + more;
        if e.Some? {
          err := e;
          WalkPrefix(agent, path, items, i + 1);
          RunStopped(Walk(agent, path, items[..i + 1]).plan, Walk(agent, path, items).plan, deliver);
          return;
        }
        started, calls := started', calls';
    }
    assert items[..|items|] == items;
  }

  /** The loop over the sorted indices: merge each index's fragments and emit them. */
  method EmitCalls(agent: string, path: string, indices: seq<int>, calls: map<int, seq<Chunk>>,
                   deliver: Event -> Option<string>, concat: seq<Chunk> -> Merge)
    returns (sent: seq<Event>, err: Option<string>)
    requires forall i | 0 <= i < |indices| :: indices[i] in calls
    ensures Run(CallsPlan(agent, path, indices, calls, concat), deliver) == Delivery(sent, err)
  {
    sent, err := [], None;
    for k := 0 to |indices|
      invariant Run(CallsPlan(agent, path, indices[..k], calls, concat), deliver) == Delivery(sent, None)
    {
      CallsPlanSnoc(agent, path, indices, k, calls, concat);
      var step := CallStep(agent, path, calls[indices[k]], concat);
      RunAppend(CallsPlan(agent, path, indices[..k], calls, concat), [step], deliver);
      match concat(calls[indices[k]])
      case MergeFailed(e) =>
        assert Run([step], deliver) == Delivery([], Some(e));
        err := Some(e);
        RunStopped(CallsPlan(agent, path, indices[..k + 1], calls, concat),
                   CallsPlan(agent, path, indices, calls, concat), deliver);
        return;
      case Merged(tcs) =>
        var ev := ToolCallsEvent(agent, path, tcs);
        RunOne(ev, deliver);
        sent := sent + [ev];
        var r := deliver(ev);
        if r.Some? {
          err := r;
          RunStopped(CallsPlan(agent, path, indices[..k + 1], calls, concat),
                     CallsPlan(agent, path, indices, calls, concat), deliver);
          return;
        }
    }
    assert indices[..|indices|] == indices;
  }

  /** handleStreamingMessage */
  method HandleStreamingMessage(agent: string, path: string, items: seq<StreamItem>,
                                deliver: Event -> Option<string>, concat: seq<Chunk> -> Merge)
    returns (sent: seq<Event>, err: Option<string>)
    ensures Run(StreamPlan(agent, path, items, concat), deliver) == Delivery(sent, err)
  {
    var received, calls, stopped, e := ReceiveLoop(agent, path, items, deliver);
    ghost var w := Walk(agent, path, items);
    StreamPlanExtends(agent, path, items, concat);
    if e.Some? {
      RunStopped(w.plan, StreamPlan(agent, path, items, concat), deliver);
      return received, e;
    }
    if stopped {
      return received, None;
    }
    var indices := AscendingKeys(calls.Keys);
    var merged, e' := EmitCalls(agent, path, indices, calls, deliver, concat);
    RunAppend(w.plan, CallsPlan(agent, path, indices, calls, concat), deliver);
    sent, err := received + merged, e';
  }

  // ---------------------------------------------------------------------
  // Actions and the whole event

  /** handleAction: a transfer is reported alone; otherwise each interrupt context, then the exit. */
  function ActionPlan(agent: string, path: string, a: Action): (p: seq<Step>)
    ensures a.transferTo.Some? ==>
              p == [Emit(ActionEvent(agent, path, "transfer", "Transfer to agent: " + a.transferTo.value))]
    ensures a.transferTo.None? ==>
              var ics := if a.interrupted.Some? then a.interrupted.value else [];
              && |p| == |ics| + (if a.exit then 1 else 0)
              && (forall i | 0 <= i < |ics| :: p[i] == Emit(ActionEvent(agent, path, "interrupted", ics[i])))
              && (a.exit ==> p[|p| - 1] == Emit(ActionEvent(agent, path, "exit", "Agent execution completed")))
  {
    if a.transferTo.Some? then
      [Emit(ActionEvent(agent, path, "transfer", "Transfer to agent: " + a.transferTo.value))]
    else
      var ics := if a.interrupted.Some? then a.interrupted.value else [];
      seq(|ics|, i requires 0 <= i < |ics| => Emit(ActionEvent(agent, path, "interrupted", ics[i])))
      + (if a.exit then [Emit(ActionEvent(agent, path, "exit", "Agent execution completed"))] else [])
  }

  method HandleAction(agent: string, path: string, a: Action, deliver: Event -> Option<string>)
    returns (sent: seq<Event>, err: Option<string>)
    ensures Run(ActionPlan(agent, path, a), deliver) == Delivery(sent, err)
  {
    if a.transferTo.Some? {
      var ev := ActionEvent(agent, path, "transfer", "Transfer to agent: " + a.transferTo.value);
      RunOne(ev, deliver);
      return [ev], deliver(ev);
    }
    var ics := if a.interrupted.Some? then a.interrupted.value else [];
    ghost var plan := ActionPlan(agent, path, a);
    sent, err := [], None;
    for i := 0 to |ics|
      invariant Run(plan[..i], deliver) == Delivery(sent, None)
    {
      var ev := ActionEvent(agent, path, "interrupted", ics[i]);
      assert plan[..i + 1] == plan[..i] + [Emit(ev)];
      RunAppend(plan[..i], [Emit(ev)], deliver);
      RunOne(ev, deliver);
      sent := sent + [ev];
      var r := deliver(ev);
      if r.Some? {
        err := r;
        RunStopped(plan[..i + 1], plan, deliver);
        return;
      }
    }
    if a.exit {
      var ev := ActionEvent(agent, path, "exit", "Agent execution completed");
      assert plan == plan[..|ics|] + [Emit(ev)];
      RunAppend(plan[..|ics|], [Emit(ev)], deliver);
      RunOne(ev, deliver);
      sent, err := sent + [ev], deliver(ev);
    } else {
      assert plan == plan[..|ics|];
    }
  }

  /** handleMessageOutput: a whole message, else a stream, else nothing. */
  function OutputPlan(ev: AgentEvent, concat: seq<Chunk> -> Merge): seq<Step> {
    if ev.output.None? then []
    else if ev.output.value.message.Some? then [Emit(RegularEvent(ev.agentName, ev.runPath, ev.output.value.message.value))]
    else if ev.output.value.stream.Some? then StreamPlan(ev.agentName, ev.runPath, ev.output.value.stream.value, concat)
    else []
  }

  /** ProcessAgentEvent: an error alone, else the output and then the action. */
  function AgentPlan(ev: AgentEvent, concat: seq<Chunk> -> Merge): seq<Step> {
    if ev.err.Some? then [Emit(ErrorEvent(ev.agentName, ev.runPath, ev.err.value))]
    else OutputPlan(ev, concat) + (if ev.action.Some? then ActionPlan(ev.agentName, ev.runPath, ev.action.value) else [])
  }

  method ProcessAgentEvent(ev: AgentEvent, deliver: Event -> Option<string>, concat: seq<Chunk> -> Merge)
    returns (sent: seq<Event>, err: Option<string>)
    ensures Run(AgentPlan(ev, concat), deliver) == Delivery(sent, err)
  {
    if ev.err.Some? {
      var e := ErrorEvent(ev.agentName, ev.runPath, ev.err.value);
      RunOne(e, deliver);
      return [e], deliver(e);
    }
    sent, err := [], None;
    if ev.output.Some? {
      var out := ev.output.value;
      if out.message.Some? {
        var e := RegularEvent(ev.agentName, ev.runPath, out.message.value);
        RunOne(e, deliver);
        sent, err := [e], deliver(e);
      } else if out.stream.Some? {
        sent, err := HandleStreamingMessage(ev.agentName, ev.runPath, out.stream.value, deliver, concat);
      }
    } else {
      assert Run([], deliver) == Delivery([], None);
    }
    ghost var actions := if ev.action.Some? then ActionPlan(ev.agentName, ev.runPath, ev.action.value) else [];
    RunAppend(OutputPlan(ev, concat), actions, deliver);
    if err.Some? {
      return;
    }
    if ev.action.Some? {
      var more, e := HandleAction(ev.agentName, ev.runPath, ev.action.value, deliver);
      sent, err := sent + more, e;
    } else {
      assert Run(actions, deliver) == Delivery([], None);
    }
  }

  // ---------------------------------------------------------------------
  // What the plans promise

  /** An agent error is reported as one error event and nothing else is looked at. */
  lemma AgentErrorAlone(ev: AgentEvent, deliver: Event -> Option<string>, concat: seq<Chunk> -> Merge)
    requires ev.err.Some?
    ensures var e := Event("error", ev.agentName, ev.runPath, "", [], "", ev.err.value);
            Run(AgentPlan(ev, concat), deliver) == Delivery([e], deliver(e))
  {
    RunOne(ErrorEvent(ev.agentName, ev.runPath, ev.err.value), deliver);
  }

  /** A failing output step leaves the action unreported. */
  lemma OutputFailureSkipsAction(ev: AgentEvent, deliver: Event -> Option<string>, concat: seq<Chunk> -> Merge)
    requires ev.err.None? && Run(OutputPlan(ev, concat), deliver).err.Some?
    ensures Run(AgentPlan(ev, concat), deliver) == Run(OutputPlan(ev, concat), deliver)
  {
    PrefixAppend(OutputPlan(ev, concat),
                 if ev.action.Some? then ActionPlan(ev.agentName, ev.runPath, ev.action.value) else []);
    RunStopped(OutputPlan(ev, concat), AgentPlan(ev, concat), deliver);
  }

  /** The texts of the chunk events of a plan, in order. */
  function Texts(plan: seq<Step>): seq<string> {
    if |plan| == 0 then []
    else
      var s := plan[|plan| - 1];
      Texts(plan[..|plan| - 1])
      + (if s.Emit? && (s.event.kind == "stream_chunk" || s.event.kind == "tool_result_chunk") then [s.event.content] else [])
  }

  /** The number of tool_calls_preparing events of a plan. */
  function Announced(plan: seq<Step>): nat {
    if |plan| == 0 then 0
    else
      var s := plan[|plan| - 1];
      Announced(plan[..|plan| - 1]) + (if s.Emit? && s.event.kind == "tool_calls_preparing" then 1 else 0)
  }

  lemma {:induction false} TallyAppend(a: seq<Step>, b: seq<Step>)
    ensures Texts(a + b) == Texts(a) + Texts(b)
    ensures Announced(a + b) == Announced(a) + Announced(b)
    decreases |b|
  {
    if |b| == 0 {
      assert a + b == a;
    } else {
      var init := b[..|b| - 1];
      assert (a + b)[..|a + b| - 1] == a + init;
      TallyAppend(a, init);
    }
  }

  /** The non-empty texts of the received chunks, in order. */
  function StreamTexts(items: seq<StreamItem>): seq<string> {
    if |items| == 0 then []
    else
      var it := items[|items| - 1];
      StreamTexts(items[..|items| - 1]) + (if it.Received? && it.chunk.content != "" then [it.chunk.content] else [])
  }

  /** The indices a sequence of tool calls carries. */
  function Indices(tcs: seq<ToolCall>): set<int> {
    set i | 0 <= i < |tcs| && tcs[i].index.Some? :: tcs[i].index.value
  }

  /** Announcing one chunk's calls: each new index at most once, and only indices the chunk carries. */
  lemma {:induction false} PrepareTally(agent: string, path: string, tcs: seq<ToolCall>, started: set<int>)
    ensures var p := PreparePlan(agent, path, tcs, started);
            && started <= p.started && p.started - started <= Indices(tcs)
            && Texts(p.plan) == [] && Announced(p.plan) + |started| == |p.started|
    decreases |tcs|
  {
    if |tcs| > 0 {
      var init := tcs[..|tcs| - 1];
      var tc := tcs[|tcs| - 1];
      PrepareTally(agent, path, init, started);
      var p := PreparePlan(agent, path, init, started);
      assert Indices(init) <= Indices(tcs) by {
        forall x | x in Indices(init) ensures x in Indices(tcs) {
          var i :| 0 <= i < |init| && init[i].index.Some? && init[i].index.value == x;
          assert tcs[i] == init[i];
        }
      }
      if tc.index.Some? && tc.index.value !in p.started && tc.name != "" {
        var e := PreparingEvent(agent, path, tc.name);
        TallyAppend(p.plan, [Emit(e)]);
        assert [Emit(e)][..0] == [];
        assert tc.index.value in Indices(tcs) by {
          assert tcs[|tcs| - 1] == tc;
        }
        assert |p.started + {tc.index.value}| == |p.started| + 1;
      }
    }
  }

  /** Grouping adds exactly the indices the chunk carries. */
  lemma {:induction false} GroupKeys(calls: map<int, seq<Chunk>>, role: Role, tcs: seq<ToolCall>)
    ensures Group(calls, role, tcs).Keys == calls.Keys + Indices(tcs)
    decreases |tcs|
  {
    if |tcs| > 0 {
      var init := tcs[..|tcs| - 1];
      GroupKeys(calls, role, init);
      assert Indices(tcs) == Indices(init) + (if tcs[|tcs| - 1].index.Some? then {tcs[|tcs| - 1].index.value} else {}) by {
        forall x | x in Indices(tcs)
          ensures x in Indices(init) || (tcs[|tcs| - 1].index.Some? && x == tcs[|tcs| - 1].index.value)
        {
          var i :| 0 <= i < |tcs| && tcs[i].index.Some? && tcs[i].index.value == x;
          if i < |tcs| - 1 {
            assert init[i] == tcs[i];
          }
        }
        forall x | x in Indices(init) ensures x in Indices(tcs) {
          var i :| 0 <= i < |init| && init[i].index.Some? && init[i].index.value == x;
          assert tcs[i] == init[i];
        }
      }
    } else {
      assert Indices(tcs) == {};
    }
  }

  /** One chunk: its text if it has one, and an announcement per newly started index. */
  lemma ChunkTally(agent: string, path: string, c: Chunk, started: set<int>)
    ensures var p := ChunkPlan(agent, path, c, started);
            var q := PreparePlan(agent, path, c.toolCalls, started);
            && Texts(p) == (if c.content != "" then [c.content] else [])
            && Announced(p) + |started| == |q.started|
            && started <= q.started && q.started - started <= Indices(c.toolCalls)
  {
    var head := if c.content != "" then [Emit(ContentEvent(agent, path, c))] else [];
    var prep := PreparePlan(agent, path, c.toolCalls, started);
    assert ChunkPlan(agent, path, c, started) == head + prep.plan;
    TallyAppend(head, prep.plan);
    assert [Emit(ContentEvent(agent, path, c))][..0] == [];
    PrepareTally(agent, path, c.toolCalls, started);
  }

  /**
   * With no receive error, the loop reports the non-empty chunk texts in
   * arrival order, and announces each tool-call index at most once: as many
   * announcements as announced indices, all of them indices that received
   * fragments.
   */
  lemma {:induction false} StreamTally(agent: string, path: string, items: seq<StreamItem>)
    requires forall i | 0 <= i < |items| :: items[i].Received?
    ensures var w := Walk(agent, path, items);
            && !w.stopped && Texts(w.plan) == StreamTexts(items)
            && Announced(w.plan) == |w.started| && w.started <= w.calls.Keys
    decreases |items|
  {
    if |items| > 0 {
      var init := items[..|items| - 1];
      StreamTally(agent, path, init);
      var w := Walk(agent, path, init);
      var c := items[|items| - 1].chunk;
      ChunkTally(agent, path, c, w.started);
      TallyAppend(w.plan, ChunkPlan(agent, path, c, w.started));
      GroupKeys(w.calls, c.role, c.toolCalls);
    }
  }

  function Lookup(calls: map<int, seq<Chunk>>, idx: int): seq<Chunk> {
    if idx in calls then calls[idx] else []
  }

  /** A chunk's fragments for one index, in order, each as a one-call message. */
  function Fragments(role: Role, tcs: seq<ToolCall>, idx: int): seq<Chunk> {
    if |tcs| == 0 then []
    else
      var tc := tcs[|tcs| - 1];
      Fragments(role, tcs[..|tcs| - 1], idx) + (if tc.index == Some(idx) then [Chunk(role, "", [tc])] else [])
  }

  /** All fragments for one index over the received chunks, in arrival order. */
  function StreamFragments(items: seq<StreamItem>, idx: int): seq<Chunk> {
    if |items| == 0 then []
    else
      var it := items[|items| - 1];
      StreamFragments(items[..|items| - 1], idx)
      + (if it.Received? then Fragments(it.chunk.role, it.chunk.toolCalls, idx) else [])
  }

  lemma {:induction false} GroupFragments(calls: map<int, seq<Chunk>>, role: Role, tcs: seq<ToolCall>, idx: int)
    ensures Lookup(Group(calls, role, tcs), idx) == Lookup(calls, idx) + Fragments(role, tcs, idx)
    decreases |tcs|
  {
    if |tcs| > 0 {
      GroupFragments(calls, role, tcs[..|tcs| - 1], idx);
    }
  }

  /** With no receive error, each index holds exactly its fragments, in arrival order. */
  lemma {:induction false} StreamFragmentsKept(agent: string, path: string, items: seq<StreamItem>, idx: int)
    requires forall i | 0 <= i < |items| :: items[i].Received?
    ensures Lookup(Walk(agent, path, items).calls, idx) == StreamFragments(items, idx)
    decreases |items|
  {
    if |items| > 0 {
      var init := items[..|items| - 1];
      StreamFragmentsKept(agent, path, init, idx);
      StreamTally(agent, path, init);
      var c := items[|items| - 1].chunk;
      GroupFragments(Walk(agent, path, init).calls, c.role, c.toolCalls, idx);
    }
  }

  /**
   * A receive error ends the stream: the events before it, then one error
   * event "stream error: ...", and no tool_calls events.
   */
  lemma StreamErrorStops(agent: string, path: string, items: seq<StreamItem>, k: nat, concat: seq<Chunk> -> Merge)
    requires k < |items| && items[k].RecvFailed?
    requires forall i | 0 <= i < k :: items[i].Received?
    ensures StreamPlan(agent, path, items, concat)
            == Walk(agent, path, items[..k]).plan + [Emit(Event("error", agent, path, "", [], "", "stream error: " + items[k].err))]
  {
    StreamTally(agent, path, items[..k]);
    assert items[..k + 1][..k] == items[..k];
    WalkStoppedStays(agent, path, items, k + 1);
  }

  /** The number of indices of s below x: x's position in ascending order. */
  function Rank(s: set<int>, x: int): nat {
    |set y | y in s && y < x|
  }

  /**
   * After the stream ends, one step per index that received fragments, in
   * ascending index order: the step merging index x's fragments comes after
   * the receive loop's events, preceded by one step per smaller index.
   */
  lemma ToolCallsInIndexOrder(agent: string, path: string, items: seq<StreamItem>, concat: seq<Chunk> -> Merge)
    requires !Walk(agent, path, items).stopped
    ensures var w := Walk(agent, path, items);
            var p := StreamPlan(agent, path, items, concat);
            && |p| == |w.plan| + |w.calls|
            && p[..|w.plan|] == w.plan
            && (forall x | x in w.calls ::
                  Rank(w.calls.Keys, x) < |w.calls|
                  && p[|w.plan| + Rank(w.calls.Keys, x)] == CallStep(agent, path, w.calls[x], concat))
  {
    CallsAtRank(agent, path, Walk(agent, path, items).plan, Walk(agent, path, items).calls, concat);
  }

  lemma CallsAtRank(agent: string, path: string, head: seq<Step>, calls: map<int, seq<Chunk>>,
                    concat: seq<Chunk> -> Merge)
    ensures var p := head + CallsPlan(agent, path, AscendingKeys(calls.Keys), calls, concat);
            && |p| == |head| + |calls|
            && p[..|head|] == head
            && (forall x | x in calls ::
                  Rank(calls.Keys, x) < |calls|
                  && p[|head| + Rank(calls.Keys, x)] == CallStep(agent, path, calls[x], concat))
  {
    var ks := AscendingKeys(calls.Keys);
    AscendingKeysSpec(calls.Keys);
    var tail := CallsPlan(agent, path, ks, calls, concat);
    var p := head + tail;
    assert |calls.Keys| == |calls|;
    assert p[..|head|] == head;
    forall x | x in calls
      ensures Rank(calls.Keys, x) < |calls|
      ensures p[|head| + Rank(calls.Keys, x)] == CallStep(agent, path, calls[x], concat)
    {
      var i :| 0 <= i < |ks| && ks[i] == x;
      RankOfSorted(calls.Keys, ks, i);
      assert p[|head| + i] == tail[i];
    }
  }

  /** In a strictly ascending listing of a set, the i-th element has exactly i smaller elements. */
  lemma RankOfSorted(s: set<int>, ks: seq<int>, i: nat)
    requires i < |ks| && |ks| == |s|
    requires forall x | x in s :: x in ks
    requires forall j | 0 <= j < |ks| :: ks[j] in s
    requires forall a, b | 0 <= a < b < |ks| :: ks[a] < ks[b]
    ensures Rank(s, ks[i]) == i
  {
    var smaller := set y | y in s && y < ks[i];
    var prefix := set j | 0 <= j < i :: ks[j];
    forall y | y in smaller ensures y in prefix {
      var j :| 0 <= j < |ks| && ks[j] == y;
      SortedMono(ks, i, j);
    }
    assert smaller == prefix;
    DistinctCard(ks, i);
  }

  lemma {:induction false} DistinctCard(ks: seq<int>, i: nat)
    requires i <= |ks|
    requires forall a, b | 0 <= a < b < |ks| :: ks[a] < ks[b]
    ensures |set j | 0 <= j < i :: ks[j]| == i
  {
    if i > 0 {
      DistinctCard(ks, i - 1);
      var before := set j | 0 <= j < i - 1 :: ks[j];
      assert (set j | 0 <= j < i :: ks[j]) == before + {ks[i - 1]};
      assert ks[i - 1] !in before;
    }
  }

  lemma SortedMono(ks: seq<int>, i: nat, j: nat)
    requires i < |ks| && j < |ks|
    requires forall a, b | 0 <= a < b < |ks| :: ks[a] < ks[b]
    ensures i <= j ==> ks[i] <= ks[j]
  {
  }
}
