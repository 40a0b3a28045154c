/**
 * common/message.go: ConcatMessages, which merges the chunks of a
 * streamed model reply into one message. Role, name, tool call id and tool
 * name must agree wherever they are set; contents are concatenated; token
 * usage is the maximum seen; the finish reason is the last one given; log
 * probabilities are concatenated.
 *
 * A nil chunk is `None`. Log probabilities are modelled by their tokens.
 */
module CommonMessage {
  import opened GoStrings

  datatype ToolCall = ToolCall(id: string, name: string, arguments: string)

  datatype Usage = Usage(promptTokens: int, completionTokens: int, totalTokens: int, cachedTokens: int)

  datatype ResponseMeta = ResponseMeta(finishReason: string, usage: Option<Usage>, logProbs: Option<seq<string>>)

  /** schema.Message, as far as ConcatMessages reads or writes it. */
  datatype Message = Message(role: string, name: string, toolCallId: string, toolName: string,
                             content: string, reasoningContent: string,
                             toolCalls: seq<ToolCall>, meta: Option<ResponseMeta>)

  const EmptyMessage := Message("", "", "", "", "", "", [], None)

  datatype ConcatResult = Concatenated(msg: Message) | ConcatFailed(err: string)

  /** The four identity fields, which every chunk that sets them must agree on. */
  datatype Field = RoleField | NameField | CallIdField | ToolNameField

  function Get(m: Message, f: Field): string {
    match f
    case RoleField => m.role
    case NameField => m.name
    case CallIdField => m.toolCallId
    case ToolNameField => m.toolName
  }

  function Max(a: int, b: int): int {
    if a >= b then a else b
  }

  // ---------------------------------------------------------------------
  // One chunk at a time

  /** Taking a chunk's value for a field: adopt it when unset, keep it when equal, None on a conflict. */
  function Adopt(cur: string, v: string): (r: Option<string>)
    ensures r.None? <==> v != "" && cur != "" && v != cur
    ensures r.Some? ==> r.value == (if cur == "" then v else cur)
  {
    if v == "" then Some(cur)
    else if cur == "" then Some(v)
    else if cur == v then Some(cur)
    else None
  }

  function NilChunkError(idx: nat): string {
    "unexpected nil chunk in message stream, index: " + Itoa(idx)
  }

  function ConflictError(what: string, a: string, b: string): string {
    "cannot concat messages with different " + what + ": '" + a + "' '" + b + "'"
  }

  /**
   * The message of a tool-name conflict as written: it quotes the tool
   * call ids of the two messages instead of their tool names.
   */
  function ToolNameErrorAsWritten(ret: Message, m: Message): string {
    ConflictError("toolNames", ret.toolCallId, m.toolCallId)
  }

  /** The message of a tool-name conflict, quoting the two tool names. */
  function ToolNameError(ret: Message, m: Message): string {
    ConflictError("toolNames", ret.toolName, m.toolName)
  }

  /** The merged usage: each count the larger of the two. */
  function MergeUsage(cur: Option<Usage>, u: Option<Usage>): Option<Usage> {
    match u
    case None => cur
    case Some(n) =>
      var c := if cur.None? then Usage(0, 0, 0, 0) else cur.value;
      Some(Usage(Max(c.promptTokens, n.promptTokens), Max(c.completionTokens, n.completionTokens),
                 Max(c.totalTokens, n.totalTokens), Max(c.cachedTokens, n.cachedTokens)))
  }

  /** The merged response metadata of the result so far and one more chunk. */
  function MergeMeta(cur: Option<ResponseMeta>, m: Option<ResponseMeta>): Option<ResponseMeta> {
    match m
    case None => cur
    case Some(n) =>
      var c := if cur.None? then ResponseMeta("", None, None) else cur.value;
      var logProbs := if n.logProbs.None? then c.logProbs
                      else Some((if c.logProbs.None? then [] else c.logProbs.value) + n.logProbs.value);
      Some(ResponseMeta(if n.finishReason != "" then n.finishReason else c.finishReason,
                        MergeUsage(c.usage, n.usage), logProbs))
  }

  /** What the loop carries: the result so far and the accumulated contents and tool calls. */
  datatype Acc = Acc(ret: Message, contents: seq<string>, reasonings: seq<string>, toolCalls: seq<ToolCall>)

  datatype Folded = Going(acc: Acc) | Stopped(err: string)

  const Start := Acc(EmptyMessage, [], [], [])

  datatype Identified = Identified(ret: Message) | Conflict(err: string)

  /** The role, name, tool call id and tool name checks of one chunk, in that order. */
  function Identify(r: Message, m: Message): (res: Identified)
    ensures res.Identified? <==> Adopt(r.role, m.role).Some? && Adopt(r.name, m.name).Some?
                                 && Adopt(r.toolCallId, m.toolCallId).Some? && Adopt(r.toolName, m.toolName).Some?
    ensures res.Identified? ==> forall f :: Get(res.ret, f) == (if Get(r, f) == "" then Get(m, f) else Get(r, f))
    ensures res.Identified? ==> res.ret.content == r.content && res.ret.reasoningContent == r.reasoningContent
                                && res.ret.toolCalls == r.toolCalls && res.ret.meta == r.meta
  {
    var role := Adopt(r.role, m.role);
    var name := Adopt(r.name, m.name);
    var id := Adopt(r.toolCallId, m.toolCallId);
    var tool := Adopt(r.toolName, m.toolName);
    if role.None? then Conflict(ConflictError("roles", r.role, m.role))
    else if name.None? then Conflict(ConflictError("names", r.name, m.name))
    else if id.None? then Conflict(ConflictError("toolCallIDs", r.toolCallId, m.toolCallId))
    else if tool.None? then Conflict(ToolNameError(r, m))
    else Identified(r.(role := role.value, name := name.value, toolCallId := id.value, toolName := tool.value))
  }

  /** One pass of the loop over the chunk at index idx. */
  function Step(acc: Acc, idx: nat, chunk: Option<Message>): Folded {
    match chunk
    case None => Stopped(NilChunkError(idx))
    case Some(m) =>
      match Identify(acc.ret, m)
      case Conflict(e) => Stopped(e)
      case Identified(r) =>
        Going(Acc(r.(meta := MergeMeta(r.meta, m.meta)),
                  acc.contents + (if m.content != "" then [m.content] else []),
                  acc.reasonings + (if m.reasoningContent != "" then [m.reasoningContent] else []),
                  acc.toolCalls + m.toolCalls))
  }

  /** The loop over a list of chunks. */
  function Fold(chunks: seq<Option<Message>>): Folded {
    if |chunks| == 0 then Going(Start)
    else match Fold(chunks[..|chunks| - 1])
      case Stopped(e) => Stopped(e)
      case Going(acc) => Step(acc, |chunks| - 1, chunks[|chunks| - 1])
  }

  lemma FoldNext(chunks: seq<Option<Message>>, i: nat)
    requires i < |chunks| && Fold(chunks[..i]).Going?
    ensures Fold(chunks[..i + 1]) == Step(Fold(chunks[..i]).acc, i, chunks[i])
  {
    assert chunks[..i + 1][..i] == chunks[..i];
  }

  /** Once a chunk is refused, later chunks do not change the error. */
  lemma {:induction false} StoppedStays(chunks: seq<Option<Message>>, k: nat)
    requires k <= |chunks| && Fold(chunks[..k]).Stopped?
    ensures Fold(chunks) == Fold(chunks[..k])
    decreases |chunks|
  {
    if k < |chunks| {
      var init := chunks[..|chunks| - 1];
      assert init[..k] == chunks[..k];
      StoppedStays(init, k);
    } else {
      assert chunks[..k] == chunks;
    }
  }

  /** strings.Builder over a list of pieces. */
  function Concat(parts: seq<string>): string {
    if |parts| == 0 then "" else Concat(parts[..|parts| - 1]) + parts[|parts| - 1]
  }

  /** After the loop: the contents joined into the result. */
  function Finish(acc: Acc): Message {
    acc.ret.(content := if |acc.contents| > 0 then Concat(acc.contents) else "",
             reasoningContent := if |acc.reasonings| > 0 then Concat(acc.reasonings) else "")
  }

  function ConcatOf(chunks: seq<Option<Message>>): ConcatResult {
    match Fold(chunks)
    case Going(acc) => Concatenated(Finish(acc))
    case Stopped(e) => ConcatFailed(e)
  }

  // ---------------------------------------------------------------------
  // The method

  /** The strings.Builder loop. */
  method JoinPieces(parts: seq<string>) returns (s: string)
    ensures s == Concat(parts)
  {
    s := "";
    for k := 0 to |parts|
      invariant s == Concat(parts[..k])
    {
      assert parts[..k + 1][..k] == parts[..k];
      s := s + parts[k];
    }
    assert parts[..|parts|] == parts;
  }

  /** The two strings.Builder passes after the loop. */
  method JoinContents(ret: Message, contents: seq<string>, reasoningContents: seq<string>) returns (m: Message)
    requires ret.content == "" && ret.reasoningContent == ""
    ensures m == Finish(Acc(ret, contents, reasoningContents, []))
  {
    m := ret;
    if |contents| > 0 {
      var s := JoinPieces(contents);
      m := m.(content := s);
    }
    if |reasoningContents| > 0 {
      var s := JoinPieces(reasoningContents);
      m := m.(reasoningContent := s);
    }
  }

  /** The identity checks of the loop body. */
  method IdentifyChunk(ret: Message, msg: Message) returns (r: Identified)
    ensures r == Identify(ret, msg)
  {
    var m := ret;
    if msg.role != "" {
      if m.role == "" {
        m := m.(role := msg.role);
      } else if m.role != msg.role {
        return Conflict(ConflictError("roles", m.role, msg.role));
      }
    }
    if msg.name != "" {
      if m.name == "" {
        m := m.(name := msg.name);
      } else if m.name != msg.name {
        return Conflict(ConflictError("names", m.name, msg.name));
      }
    }
    if msg.toolCallId != "" {
      if m.toolCallId == "" {
        m := m.(toolCallId := msg.toolCallId);
      } else if m.toolCallId != msg.toolCallId {
        return Conflict(ConflictError("toolCallIDs", m.toolCallId, msg.toolCallId));
      }
    }
    if msg.toolName != "" {
      if m.toolName == "" {
        m := m.(toolName := msg.toolName);
      } else if m.toolName != msg.toolName {
        return Conflict(ToolNameError(m, msg));
      }
    }
    return Identified(m);
  }

  /** The body of the loop for the chunk at index idx. */
  method AbsorbChunk(ret: Message, contents: seq<string>, reasoningContents: seq<string>,
                     toolCalls: seq<ToolCall>, idx: nat, chunk: Option<Message>) returns (f: Folded)
    ensures f == Step(Acc(ret, contents, reasoningContents, toolCalls), idx, chunk)
  {
    if chunk.None? {
      return Stopped(NilChunkError(idx));
    }
    var msg := chunk.value;
    var id := IdentifyChunk(ret, msg);
    if id.Conflict? {
      return Stopped(id.err);
    }
    var m := id.ret;
    var cs, rs, ts := contents, reasoningContents, toolCalls;
    if msg.content != "" {
      cs := cs + [msg.content];
    }
    if msg.reasoningContent != "" {
      rs := rs + [msg.reasoningContent];
    }
    if |msg.toolCalls| > 0 {
      ts := ts + msg.toolCalls;
    }
    m := m.(meta := MergeMeta(m.meta, msg.meta));
    return Going(Acc(m, cs, rs, ts));
  }

  /** ConcatMessages */
  method ConcatMessages(msgs: seq<Option<Message>>) returns (r: ConcatResult)
    ensures r == ConcatOf(msgs)
  {
    var contents: seq<string> := [];
    var reasoningContents: seq<string> := [];
    var toolCalls: seq<ToolCall> := [];
    var ret := EmptyMessage;
    for idx := 0 to |msgs|
      invariant Fold(msgs[..idx]) == Going(Acc(ret, contents, reasoningContents, toolCalls))
      invariant ret.content == "" && ret.reasoningContent == "" && ret.toolCalls == []
    {
      FoldNext(msgs, idx);
      var f := AbsorbChunk(ret, contents, reasoningContents, toolCalls, idx, msgs[idx]);
      if f.Stopped? {
        StoppedStays(msgs, idx + 1);
        return ConcatFailed(f.err);
      }
      ret, contents, reasoningContents, toolCalls := f.acc.ret, f.acc.contents, f.acc.reasonings, f.acc.toolCalls;
    }
    assert msgs[..|msgs|] == msgs;
    ret := JoinContents(ret, contents, reasoningContents);
    return Concatenated(ret);
  }

  // ---------------------------------------------------------------------
  // What the concatenation means

  predicate AllPresent(chunks: seq<Option<Message>>) {
    forall i | 0 <= i < |chunks| :: chunks[i].Some?
  }

  /** The chunks' values of one identity field ("" for a nil chunk). */
  function Values(chunks: seq<Option<Message>>, f: Field): (vs: seq<string>)
    ensures |vs| == |chunks|
  {
    seq(|chunks|, i requires 0 <= i < |chunks| => if chunks[i].Some? then Get(chunks[i].value, f) else "")
  }

  /** Every set value is the same. */
  predicate Agree(vs: seq<string>) {
    forall i, j | 0 <= i < |vs| && 0 <= j < |vs| :: vs[i] != "" && vs[j] != "" ==> vs[i] == vs[j]
  }

  /** No nil chunk, and each identity field has at most one set value. */
  predicate Consistent(chunks: seq<Option<Message>>) {
    AllPresent(chunks) && forall f :: Agree(Values(chunks, f))
  }

  /** The first set value, or "". */
  function FirstSet(vs: seq<string>): string {
    if |vs| == 0 then ""
    else var p := FirstSet(vs[..|vs| - 1]); if p == "" then vs[|vs| - 1] else p
  }

  lemma {:induction false} FirstSetSpec(vs: seq<string>)
    ensures FirstSet(vs) == "" <==> forall i | 0 <= i < |vs| :: vs[i] == ""
    ensures FirstSet(vs) != "" ==>
              exists i | 0 <= i < |vs| :: vs[i] == FirstSet(vs) && forall j | 0 <= j < i :: vs[j] == ""
  {
    if |vs| > 0 {
      var init := vs[..|vs| - 1];
      FirstSetSpec(init);
      if FirstSet(init) != "" {
        var i :| 0 <= i < |init| && init[i] == FirstSet(init) && forall j | 0 <= j < i :: init[j] == "";
        assert vs[i] == FirstSet(vs);
      } else {
        assert forall i | 0 <= i < |init| :: vs[i] == "" by {
          forall i | 0 <= i < |init| ensures vs[i] == "" { assert vs[i] == init[i]; }
        }
      }
    }
  }

  /** A value joins an agreeing list exactly when Adopt takes it. */
  lemma AgreeSnoc(vs: seq<string>, x: string)
    requires Agree(vs)
    ensures Agree(vs + [x]) <==> Adopt(FirstSet(vs), x).Some?
    ensures FirstSet(vs + [x]) == (if FirstSet(vs) == "" then x else FirstSet(vs))
  {
    var ws := vs + [x];
    assert ws[..|vs|] == vs;
    FirstSetSpec(vs);
    var p := FirstSet(vs);
    if p != "" {
      var i :| 0 <= i < |vs| && vs[i] == p && forall j | 0 <= j < i :: vs[j] == "";
      if Agree(ws) {
        assert ws[i] == p && ws[|vs|] == x;
      }
    }
  }

  lemma PrefixConsistent(chunks: seq<Option<Message>>, k: nat)
    requires k <= |chunks| && Consistent(chunks)
    ensures Consistent(chunks[..k])
  {
    forall f ensures Agree(Values(chunks[..k], f)) {
      assert forall i | 0 <= i < k :: Values(chunks[..k], f)[i] == Values(chunks, f)[i];
    }
  }

  /** One more present chunk, checked against the first set values of the earlier ones. */
  lemma IdentifyAgrees(r: Message, prev: seq<Option<Message>>, m: Message)
    requires Consistent(prev)
    requires forall f :: Get(r, f) == FirstSet(Values(prev, f))
    ensures Identify(r, m).Identified? <==> Consistent(prev + [Some(m)])
    ensures Identify(r, m).Identified? ==>
              forall f :: Get(Identify(r, m).ret, f) == FirstSet(Values(prev + [Some(m)], f))
  {
    var c := prev + [Some(m)];
    forall f ensures Agree(Values(c, f)) <==> Adopt(Get(r, f), Get(m, f)).Some?
      ensures FirstSet(Values(c, f)) == (if Get(r, f) == "" then Get(m, f) else Get(r, f))
    {
      assert Values(c, f) == Values(prev, f) + [Get(m, f)];
      AgreeSnoc(Values(prev, f), Get(m, f));
    }
    assert AllPresent(c);
    if Identify(r, m).Identified? {
      forall f ensures Agree(Values(c, f)) {
        match f
        case RoleField =>
        case NameField =>
        case CallIdField =>
        case ToolNameField =>
      }
    } else if Adopt(r.role, m.role).None? {
      assert !Agree(Values(c, RoleField));
    } else if Adopt(r.name, m.name).None? {
      assert !Agree(Values(c, NameField));
    } else if Adopt(r.toolCallId, m.toolCallId).None? {
      assert !Agree(Values(c, CallIdField));
    } else {
      assert !Agree(Values(c, ToolNameField));
    }
  }

  /** The loop reaches the end exactly when the chunks are consistent, holding the first set values. */
  lemma {:induction false} FoldIdentity(chunks: seq<Option<Message>>)
    ensures Fold(chunks).Going? <==> Consistent(chunks)
    ensures Fold(chunks).Going? ==> forall f :: Get(Fold(chunks).acc.ret, f) == FirstSet(Values(chunks, f))
  {
    if |chunks| > 0 {
      var n := |chunks| - 1;
      var init := chunks[..n];
      FoldIdentity(init);
      if Fold(init).Stopped? {
        FoldStoppedEarlier(chunks);
      } else {
        FoldOneMore(chunks);
      }
    }
  }

  /** A refusal among the earlier chunks stops the whole list, which is then inconsistent too. */
  lemma FoldStoppedEarlier(chunks: seq<Option<Message>>)
    requires |chunks| > 0
    requires Fold(chunks[..|chunks| - 1]).Stopped? && !Consistent(chunks[..|chunks| - 1])
    ensures Fold(chunks).Stopped? && !Consistent(chunks)
  {
    if Consistent(chunks) {
      PrefixConsistent(chunks, |chunks| - 1);
    }
  }

  /** The induction step when the earlier chunks went through. */
  lemma FoldOneMore(chunks: seq<Option<Message>>)
    requires |chunks| > 0
    requires var init := chunks[..|chunks| - 1];
             Fold(init).Going? && Consistent(init)
             && forall f :: Get(Fold(init).acc.ret, f) == FirstSet(Values(init, f))
    ensures Fold(chunks).Going? <==> Consistent(chunks)
    ensures Fold(chunks).Going? ==> forall f :: Get(Fold(chunks).acc.ret, f) == FirstSet(Values(chunks, f))
  {
    var n := |chunks| - 1;
    var init := chunks[..n];
    var acc := Fold(init).acc;
    assert chunks == init + [chunks[n]];
    assert Fold(chunks) == Step(acc, n, chunks[n]);
    match chunks[n]
    case None =>
      assert !AllPresent(chunks);
    case Some(m) =>
      IdentifyAgrees(acc.ret, init, m);
      StepIdentity(acc, n, m);
  }

  /** A present chunk goes through exactly when Identify accepts it, keeping Identify's identity fields. */
  lemma StepIdentity(acc: Acc, idx: nat, m: Message)
    ensures Step(acc, idx, Some(m)).Going? <==> Identify(acc.ret, m).Identified?
    ensures Step(acc, idx, Some(m)).Going? ==>
              forall f :: Get(Step(acc, idx, Some(m)).acc.ret, f) == Get(Identify(acc.ret, m).ret, f)
  {
    if Identify(acc.ret, m).Identified? {
      var r := Identify(acc.ret, m).ret;
      var a := Step(acc, idx, Some(m)).acc.ret;
      assert a == r.(meta := MergeMeta(r.meta, m.meta));
      forall f ensures Get(a, f) == Get(r, f) {
        match f
        case RoleField =>
        case NameField =>
        case CallIdField =>
        case ToolNameField =>
      }
    }
  }

  /** The chunks' contents in order ("" for a nil chunk). */
  function Contents(chunks: seq<Option<Message>>): (cs: seq<string>)
    ensures |cs| == |chunks|
  {
    seq(|chunks|, i requires 0 <= i < |chunks| => if chunks[i].Some? then chunks[i].value.content else "")
  }

  function Reasonings(chunks: seq<Option<Message>>): (cs: seq<string>)
    ensures |cs| == |chunks|
  {
    seq(|chunks|, i requires 0 <= i < |chunks| => if chunks[i].Some? then chunks[i].value.reasoningContent else "")
  }

  /** Every chunk's tool calls, in order. */
  function AllToolCalls(chunks: seq<Option<Message>>): seq<ToolCall> {
    if |chunks| == 0 then []
    else AllToolCalls(chunks[..|chunks| - 1])
         + (if chunks[|chunks| - 1].Some? then chunks[|chunks| - 1].value.toolCalls else [])
  }

  function Metas(chunks: seq<Option<Message>>): (ms: seq<Option<ResponseMeta>>)
    ensures |ms| == |chunks|
  {
    seq(|chunks|, i requires 0 <= i < |chunks| => if chunks[i].Some? then chunks[i].value.meta else None)
  }

  /** The response metadata merged over a list, starting from none. */
  function MetaFold(ms: seq<Option<ResponseMeta>>): Option<ResponseMeta> {
    if |ms| == 0 then None else MergeMeta(MetaFold(ms[..|ms| - 1]), ms[|ms| - 1])
  }

  lemma ConcatSnoc(parts: seq<string>, x: string)
    ensures Concat(parts + [x]) == Concat(parts) + x
  {
    assert (parts + [x])[..|parts|] == parts;
  }

  lemma Listed(chunks: seq<Option<Message>>)
    requires |chunks| > 0 && chunks[|chunks| - 1].Some?
    ensures var n := |chunks| - 1;
            Contents(chunks) == Contents(chunks[..n]) + [chunks[n].value.content]
            && Reasonings(chunks) == Reasonings(chunks[..n]) + [chunks[n].value.reasoningContent]
            && Metas(chunks) == Metas(chunks[..n]) + [chunks[n].value.meta]
  {
  }

  /** Appending a piece only when it is non-empty does not change the joined text. */
  lemma ConcatKept(parts: seq<string>, x: string)
    ensures Concat(parts + (if x != "" then [x] else [])) == Concat(parts) + x
  {
    if x != "" {
      ConcatSnoc(parts, x);
    } else {
      assert parts + [] == parts;
    }
  }

  lemma StepGoing(acc: Acc, idx: nat, m: Message)
    requires Step(acc, idx, Some(m)).Going?
    ensures var a := Step(acc, idx, Some(m)).acc;
            a.ret.content == acc.ret.content && a.ret.reasoningContent == acc.ret.reasoningContent
            && a.ret.toolCalls == acc.ret.toolCalls && a.ret.meta == MergeMeta(acc.ret.meta, m.meta)
            && a.contents == acc.contents + (if m.content != "" then [m.content] else [])
            && a.reasonings == acc.reasonings + (if m.reasoningContent != "" then [m.reasoningContent] else [])
            && a.toolCalls == acc.toolCalls + m.toolCalls
  {
  }

  /** What the loop has accumulated when it reaches the end. */
  lemma {:induction false} FoldAccumulates(chunks: seq<Option<Message>>)
    requires Fold(chunks).Going?
    ensures Concat(Fold(chunks).acc.contents) == Concat(Contents(chunks))
    ensures Concat(Fold(chunks).acc.reasonings) == Concat(Reasonings(chunks))
    ensures Fold(chunks).acc.toolCalls == AllToolCalls(chunks)
    ensures Fold(chunks).acc.ret.meta == MetaFold(Metas(chunks))
    ensures Fold(chunks).acc.ret.content == "" && Fold(chunks).acc.ret.reasoningContent == ""
    ensures Fold(chunks).acc.ret.toolCalls == []
  {
    if |chunks| > 0 {
      var n := |chunks| - 1;
      var init := chunks[..n];
      if Fold(init).Stopped? {
        StoppedStays(chunks, n);
      }
      FoldNext(chunks, n);
      var acc := Fold(init).acc;
      var m := chunks[n].value;
      FoldAccumulates(init);
      StepGoing(acc, n, m);
      Listed(chunks);
      assert Metas(chunks)[..n] == Metas(init);
      ConcatSnoc(Contents(init), m.content);
      ConcatSnoc(Reasonings(init), m.reasoningContent);
      ConcatKept(acc.contents, m.content);
      ConcatKept(acc.reasonings, m.reasoningContent);
    }
  }

  /**
   * ConcatMessages succeeds exactly when no chunk is nil and the chunks agree
   * on every identity field; the result then carries the first set value of
   * each, the concatenated contents, the merged metadata and no tool calls.
   */
  lemma ConcatMeaning(chunks: seq<Option<Message>>)
    ensures ConcatOf(chunks).Concatenated? <==> Consistent(chunks)
    ensures ConcatOf(chunks).Concatenated? ==>
              (forall f :: Get(ConcatOf(chunks).msg, f) == FirstSet(Values(chunks, f)))
              && ConcatOf(chunks).msg.content == Concat(Contents(chunks))
              && ConcatOf(chunks).msg.reasoningContent == Concat(Reasonings(chunks))
              && ConcatOf(chunks).msg.meta == MetaFold(Metas(chunks))
              && ConcatOf(chunks).msg.toolCalls == []
  {
    FoldIdentity(chunks);
    if Fold(chunks).Going? {
      var acc := Fold(chunks).acc;
      FoldAccumulates(chunks);
      FinishJoins(acc);
      assert ConcatOf(chunks) == Concatenated(Finish(acc));
    }
  }

  /** Finishing joins the accumulated pieces and keeps everything else of the result. */
  lemma FinishJoins(acc: Acc)
    ensures Finish(acc).content == Concat(acc.contents)
    ensures Finish(acc).reasoningContent == Concat(acc.reasonings)
    ensures Finish(acc).meta == acc.ret.meta && Finish(acc).toolCalls == acc.ret.toolCalls
    ensures forall f :: Get(Finish(acc), f) == Get(acc.ret, f)
  {
  }

  /** The tool calls are gathered by the loop but the result never carries them. */
  lemma ToolCallsDropped(chunks: seq<Option<Message>>)
    requires Consistent(chunks) && AllToolCalls(chunks) != []
    ensures Fold(chunks).Going? && Fold(chunks).acc.toolCalls == AllToolCalls(chunks)
    ensures ConcatOf(chunks).Concatenated? && ConcatOf(chunks).msg.toolCalls == []
  {
    FoldIdentity(chunks);
    FoldAccumulates(chunks);
  }

  lemma ConcatNothing()
    ensures ConcatOf([]) == Concatenated(EmptyMessage)
  {
  }

  /** The plural each identity field is named by in its conflict error. */
  function Plural(f: Field): string {
    match f
    case RoleField => "roles"
    case NameField => "names"
    case CallIdField => "toolCallIDs"
    case ToolNameField => "toolNames"
  }

  /** The order in which the loop body checks the identity fields. */
  function Rank(f: Field): nat {
    match f
    case RoleField => 0
    case NameField => 1
    case CallIdField => 2
    case ToolNameField => 3
  }

  /** A nil chunk after consistent chunks is reported with its index. */
  lemma NilChunkReported(chunks: seq<Option<Message>>, k: nat)
    requires k < |chunks| && Consistent(chunks[..k]) && chunks[k].None?
    ensures ConcatOf(chunks) == ConcatFailed(NilChunkError(k))
  {
    FoldIdentity(chunks[..k]);
    FoldNext(chunks, k);
    StoppedStays(chunks, k + 1);
  }

  /**
   * The first chunk that sets an identity field to a second value is
   * reported, naming the field and both values, when the earlier fields
   * of that chunk agreed.
   */
  lemma ConflictReported(chunks: seq<Option<Message>>, k: nat, f: Field)
    requires k < |chunks| && Consistent(chunks[..k]) && chunks[k].Some?
    requires forall g | Rank(g) < Rank(f) :: Adopt(FirstSet(Values(chunks[..k], g)), Get(chunks[k].value, g)).Some?
    requires Adopt(FirstSet(Values(chunks[..k], f)), Get(chunks[k].value, f)).None?
    ensures ConcatOf(chunks) == ConcatFailed(ConflictError(Plural(f), FirstSet(Values(chunks[..k], f)), Get(chunks[k].value, f)))
  {
    FoldIdentity(chunks[..k]);
    FoldNext(chunks, k);
    var r := Fold(chunks[..k]).acc.ret;
    var m := chunks[k].value;
    assert Get(r, f) == FirstSet(Values(chunks[..k], f));
    match f {
      case RoleField =>
      case NameField =>
        assert Rank(RoleField) < Rank(f);
      case CallIdField =>
        assert Rank(RoleField) < Rank(f) && Rank(NameField) < Rank(f);
      case ToolNameField =>
        assert Rank(RoleField) < Rank(f) && Rank(NameField) < Rank(f) && Rank(CallIdField) < Rank(f);
    }
    StoppedStays(chunks, k + 1);
  }

  // ---------------------------------------------------------------------
  // The merged response metadata

  function UsageOf(o: Option<ResponseMeta>): Option<Usage> {
    if o.Some? then o.value.usage else None
  }

  function FinishOf(o: Option<ResponseMeta>): string {
    if o.Some? then o.value.finishReason else ""
  }

  function LogProbsOf(o: Option<ResponseMeta>): Option<seq<string>> {
    if o.Some? then o.value.logProbs else None
  }

  /** The four token counts of a usage record. */
  datatype Count = PromptCount | CompletionCount | TotalCount | CachedCount

  function Tokens(u: Usage, c: Count): int {
    match c
    case PromptCount => u.promptTokens
    case CompletionCount => u.completionTokens
    case TotalCount => u.totalTokens
    case CachedCount => u.cachedTokens
  }

  /** Merging two metadata values, one part at a time. */
  lemma MergeMetaParts(cur: Option<ResponseMeta>, m: Option<ResponseMeta>)
    ensures MergeMeta(cur, m).Some? <==> cur.Some? || m.Some?
    ensures FinishOf(MergeMeta(cur, m)) == (if FinishOf(m) != "" then FinishOf(m) else FinishOf(cur))
    ensures UsageOf(MergeMeta(cur, m)) == MergeUsage(UsageOf(cur), UsageOf(m))
    ensures LogProbsOf(MergeMeta(cur, m)) ==
              if LogProbsOf(m).None? then LogProbsOf(cur)
              else Some((if LogProbsOf(cur).None? then [] else LogProbsOf(cur).value) + LogProbsOf(m).value)
  {
  }

  lemma MergeUsageTokens(cur: Option<Usage>, u: Usage, c: Count)
    ensures MergeUsage(cur, Some(u)).Some?
    ensures Tokens(MergeUsage(cur, Some(u)).value, c) == Max(if cur.None? then 0 else Tokens(cur.value, c), Tokens(u, c))
  {
  }

  /** Metadata is present in the result exactly when some chunk has it. */
  lemma {:induction false} MetaPresence(ms: seq<Option<ResponseMeta>>)
    ensures MetaFold(ms).Some? <==> exists i | 0 <= i < |ms| :: ms[i].Some?
  {
    if |ms| > 0 {
      var init := ms[..|ms| - 1];
      MetaPresence(init);
      MergeMetaParts(MetaFold(init), ms[|ms| - 1]);
      if exists i | 0 <= i < |init| :: init[i].Some? {
        var i :| 0 <= i < |init| && init[i].Some?;
        assert ms[i].Some?;
      }
      if exists i | 0 <= i < |ms| :: ms[i].Some? {
        var i :| 0 <= i < |ms| && ms[i].Some?;
        if i < |init| {
          assert init[i].Some?;
        }
      }
    }
  }

  /** The finish reason is the last non-empty one, or "" when no chunk gives one. */
  lemma {:induction false} FinishReasonIsLast(ms: seq<Option<ResponseMeta>>)
    ensures FinishOf(MetaFold(ms)) == "" <==> forall i | 0 <= i < |ms| :: FinishOf(ms[i]) == ""
    ensures FinishOf(MetaFold(ms)) != "" ==>
              exists i | 0 <= i < |ms| :: FinishOf(ms[i]) == FinishOf(MetaFold(ms))
                                          && forall j | i < j < |ms| :: FinishOf(ms[j]) == ""
  {
    if |ms| > 0 {
      var n := |ms| - 1;
      var init := ms[..n];
      FinishReasonIsLast(init);
      MergeMetaParts(MetaFold(init), ms[n]);
      assert MetaFold(ms) == MergeMeta(MetaFold(init), ms[n]);
      assert forall i | 0 <= i < n :: ms[i] == init[i];
      if FinishOf(ms[n]) == "" {
        assert FinishOf(MetaFold(ms)) == FinishOf(MetaFold(init));
        if FinishOf(MetaFold(init)) != "" {
          var i :| 0 <= i < n && FinishOf(init[i]) == FinishOf(MetaFold(init))
                   && forall j | i < j < n :: FinishOf(init[j]) == "";
          assert FinishOf(ms[i]) == FinishOf(MetaFold(ms));
          assert forall j | i < j < |ms| :: FinishOf(ms[j]) == "";
        }
      } else {
        assert FinishOf(MetaFold(ms)) == FinishOf(ms[n]);
        assert forall j | n < j < |ms| :: FinishOf(ms[j]) == "";
      }
    }
  }

  /**
   * Usage is present exactly when some chunk reports it, and each count is
   * then the largest reported, or 0 when every reported count is negative.
   */
  lemma {:induction false} UsageIsMaximum(ms: seq<Option<ResponseMeta>>, c: Count)
    ensures UsageOf(MetaFold(ms)).Some? <==> exists i | 0 <= i < |ms| :: UsageOf(ms[i]).Some?
    ensures UsageOf(MetaFold(ms)).Some? ==>
              var t := Tokens(UsageOf(MetaFold(ms)).value, c);
              t >= 0
              && (forall i | 0 <= i < |ms| && UsageOf(ms[i]).Some? :: t >= Tokens(UsageOf(ms[i]).value, c))
              && (t == 0 || exists i | 0 <= i < |ms| && UsageOf(ms[i]).Some? :: t == Tokens(UsageOf(ms[i]).value, c))
  {
    if |ms| > 0 {
      var n := |ms| - 1;
      var init := ms[..n];
      UsageIsMaximum(init, c);
      MergeMetaParts(MetaFold(init), ms[n]);
      assert forall i | 0 <= i < n :: ms[i] == init[i];
      if UsageOf(ms[n]).Some? {
        MergeUsageTokens(UsageOf(MetaFold(init)), UsageOf(ms[n]).value, c);
        var t := Tokens(UsageOf(MetaFold(ms)).value, c);
        if t != 0 && t != Tokens(UsageOf(ms[n]).value, c) {
          var i :| 0 <= i < n && UsageOf(init[i]).Some? && t == Tokens(UsageOf(init[i]).value, c);
          assert UsageOf(ms[i]).Some?;
        }
      } else if UsageOf(MetaFold(init)).Some? {
        var i :| 0 <= i < n && UsageOf(init[i]).Some?;
        assert UsageOf(ms[i]).Some?;
      }
    }
  }

  /** Every chunk's log probabilities, in chunk order. */
  function AllLogProbs(ms: seq<Option<ResponseMeta>>): seq<string> {
    if |ms| == 0 then []
    else AllLogProbs(ms[..|ms| - 1])
         + (if LogProbsOf(ms[|ms| - 1]).Some? then LogProbsOf(ms[|ms| - 1]).value else [])
  }

  /** Log probabilities are present when some chunk has them, and are then all of them in order. */
  lemma {:induction false} LogProbsJoined(ms: seq<Option<ResponseMeta>>)
    ensures LogProbsOf(MetaFold(ms)).Some? <==> exists i | 0 <= i < |ms| :: LogProbsOf(ms[i]).Some?
    ensures LogProbsOf(MetaFold(ms)).Some? ==> LogProbsOf(MetaFold(ms)).value == AllLogProbs(ms)
  {
    if |ms| > 0 {
      var n := |ms| - 1;
      var init := ms[..n];
      LogProbsJoined(init);
      MergeMetaParts(MetaFold(init), ms[n]);
      assert forall i | 0 <= i < n :: ms[i] == init[i];
      if LogProbsOf(MetaFold(init)).None? {
        assert forall i | 0 <= i < n :: LogProbsOf(ms[i]).None?;
        AllLogProbsNone(init);
      } else {
        var i :| 0 <= i < n && LogProbsOf(init[i]).Some?;
        assert LogProbsOf(ms[i]).Some?;
      }
    }
  }

  lemma {:induction false} AllLogProbsNone(ms: seq<Option<ResponseMeta>>)
    requires forall i | 0 <= i < |ms| :: LogProbsOf(ms[i]).None?
    ensures AllLogProbs(ms) == []
  {
    if |ms| > 0 {
      AllLogProbsNone(ms[..|ms| - 1]);
    }
  }

  // ---------------------------------------------------------------------
  // The tool-name conflict message

  /**
   * As written, the tool-name conflict message quotes the tool call ids: two
   * chunks of one tool call (same id) with different tool names are reported
   * with the same id twice and neither name. The corrected message names both.
   */
  lemma ToolNameErrorAsWrittenOmitsNames()
    ensures var prev := Message("tool", "", "call_1", "read_file", "", "", [], None);
            var next := prev.(toolName := "write_file");
            ToolNameErrorAsWritten(prev, next) == ConflictError("toolNames", "call_1", "call_1")
            && ToolNameError(prev, next) == ConflictError("toolNames", "read_file", "write_file")
  {
  }

  /** The as-written message does not depend on the tool names at all. */
  lemma ToolNameErrorAsWrittenIgnoresNames(prev: Message, next: Message, a: string, b: string)
    ensures ToolNameErrorAsWritten(prev, next) == ToolNameErrorAsWritten(prev.(toolName := a), next.(toolName := b))
  {
  }

  lemma SameTail(p: string, a: string, b: string)
    requires p + a + "'" == p + b + "'"
    ensures a == b
  {
    var e := p + a + "'";
    assert |a| == |b|;
    assert e[|p|..|p| + |a|] == a;
    assert (p + b + "'")[|p|..|p| + |b|] == b;
  }

  /** The corrected message determines the incoming tool name. */
  lemma ToolNameErrorNamesIncoming(prev: Message, next: Message, other: Message)
    ensures ToolNameError(prev, next) == ToolNameError(prev, other) ==> next.toolName == other.toolName
  {
    var p := "cannot concat messages with different toolNames: '" + prev.toolName + "' '";
    assert ToolNameError(prev, next) == p + next.toolName + "'";
    assert ToolNameError(prev, other) == p + other.toolName + "'";
    if ToolNameError(prev, next) == ToolNameError(prev, other) {
      SameTail(p, next.toolName, other.toolName);
    }
  }
}
