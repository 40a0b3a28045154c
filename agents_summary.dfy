/**
 * agents/leader/summary/summary.go: the middleware that compacts a long
 * conversation before the model is called. Messages are weighed with a
 * token estimate; when the conversation is over budget it is cut into a
 * leading system message, the first run of user messages, the previous
 * summary, and blocks of the rest (an assistant tool call travels with its
 * tool replies). The newest blocks that fit the recent budget are kept, and
 * everything older is replaced by one new summary message.
 *
 * The summariser model and the token counter are parameters; a nil message
 * pointer is `None`.
 */
module AgentsSummary {
  import opened GoStrings
  import opened Seqs

  const DefaultMaxTokensBeforeSummary := 80 * 1024
  const DefaultMaxTokensForRecentMessages := 25 * 1024

  datatype Role = System | User | Assistant | Tool

  datatype ToolCall = ToolCall(id: string, name: string, arguments: string)

  datatype PartType = TextPart | OtherPart

  /** A part of UserInputMultiContent or AssistantGenMultiContent. */
  datatype Part = Part(kind: PartType, text: string)

  /**
   * schema.Message, as far as the middleware looks at it; `isSummary`
   * says that Extra holds the summary flag.
   */
  datatype Message = Message(role: Role, content: string, toolCalls: seq<ToolCall>,
                             toolCallId: string, toolName: string,
                             userParts: seq<Part>, genParts: seq<Part>, isSummary: bool)

  /** A slot of the message list; a nil pointer is None. */
  type Slot = Option<Message>

  // ---------------------------------------------------------------------
  // Token estimate

  /** The number of characters below 128. */
  function AsciiCount(s: string): (n: nat)
    ensures n <= |s|
  {
    if |s| == 0 then 0
    else AsciiCount(s[..|s| - 1]) + (if s[|s| - 1] as int < 128 then 1 else 0)
  }

  /** A quarter token per ASCII character, rounded down, and one per other character. */
  function TokensOf(s: string): nat {
    AsciiCount(s) / 4 + (|s| - AsciiCount(s))
  }

  /** countTokensInString */
  method CountTokensInString(s: string) returns (n: int)
    ensures n == TokensOf(s)
  {
    if |s| == 0 {
      return 0;
    }
    var ascii, nonAscii := 0, 0;
    for i := 0 to |s|
      invariant ascii == AsciiCount(s[..i])
      invariant nonAscii == i - ascii
    {
      assert s[..i + 1][..i] == s[..i];
      if s[i] as int < 128 {
        ascii := ascii + 1;
      } else {
        nonAscii := nonAscii + 1;
      }
    }
    assert s[..|s|] == s;
    n := ascii / 4 + nonAscii;
  }

  /** ASCII characters of a concatenation add up. */
  lemma {:induction false} AsciiCountAppend(a: string, b: string)
    ensures AsciiCount(a + b) == AsciiCount(a) + AsciiCount(b)
    decreases |b|
  {
    if |b| > 0 {
      var b' := b[..|b| - 1];
      assert (a + b)[..|a + b| - 1] == a + b';
      AsciiCountAppend(a, b');
    } else {
      assert a + b == a;
    }
  }

  /** The estimate lies between a quarter token and one token per character. */
  lemma TokensBounds(s: string)
    ensures |s| / 4 <= TokensOf(s) <= |s|
    ensures AsciiCount(s) == |s| ==> TokensOf(s) == |s| / 4
    ensures AsciiCount(s) == 0 ==> TokensOf(s) == |s|
  {
  }

  /** Splitting a text loses at most one token to rounding and never adds any. */
  lemma TokensOfAppend(a: string, b: string)
    ensures TokensOf(a) + TokensOf(b) <= TokensOf(a + b) <= TokensOf(a) + TokensOf(b) + 1
  {
    AsciiCountAppend(a, b);
  }

  /** The tokens of the text parts (other parts count nothing). */
  function PartTokens(parts: seq<Part>): nat {
    if |parts| == 0 then 0
    else PartTokens(parts[..|parts| - 1])
         + (if parts[|parts| - 1].kind == TextPart then TokensOf(parts[|parts| - 1].text) else 0)
  }

  /** The tokens of the tool calls: name, arguments and 3 for the framing of each. */
  function CallTokens(calls: seq<ToolCall>): nat {
    if |calls| == 0 then 0
    else CallTokens(calls[..|calls| - 1])
         + TokensOf(calls[|calls| - 1].name) + TokensOf(calls[|calls| - 1].arguments) + 3
  }

  /**
   * estimateTokens, as a formula: 4 for the role and framing, then the
   * content, the tool calls, the call id, the tool name and the text parts.
   */
  function EstimatedTokens(m: Message): nat {
    4 + TokensOf(m.content) + CallTokens(m.toolCalls)
      + (if m.toolCallId != "" then TokensOf(m.toolCallId) else 0)
      + (if m.toolName != "" then TokensOf(m.toolName) else 0)
      + PartTokens(m.userParts) + PartTokens(m.genParts)
  }

  /** Every tool call costs at least its 3 framing tokens. */
  lemma {:induction false} CallTokensAtLeast(calls: seq<ToolCall>)
    ensures CallTokens(calls) >= 3 * |calls|
  {
    if |calls| > 0 {
      CallTokensAtLeast(calls[..|calls| - 1]);
    }
  }

  /** An estimate is never below 4 plus 3 per tool call. */
  lemma EstimateAtLeast(m: Message)
    ensures EstimatedTokens(m) >= 4 + 3 * |m.toolCalls|
  {
    CallTokensAtLeast(m.toolCalls);
  }

  /** The parts loop of estimateTokens. */
  method AddPartTokens(n0: int, parts: seq<Part>) returns (n: int)
    ensures n == n0 + PartTokens(parts)
  {
    n := n0;
    for k := 0 to |parts|
      invariant n == n0 + PartTokens(parts[..k])
    {
      assert parts[..k + 1][..k] == parts[..k];
      if parts[k].kind == TextPart {
        var t := CountTokensInString(parts[k].text);
        n := n + t;
      }
    }
    assert parts[..|parts|] == parts;
  }

  /** estimateTokens */
  method EstimateTokens(m: Message) returns (n: int)
    ensures n == EstimatedTokens(m)
  {
    n := 4;
    var t := CountTokensInString(m.content);
    n := n + t;
    for k := 0 to |m.toolCalls|
      invariant n == 4 + TokensOf(m.content) + CallTokens(m.toolCalls[..k])
    {
      assert m.toolCalls[..k + 1][..k] == m.toolCalls[..k];
      var a := CountTokensInString(m.toolCalls[k].name);
      var b := CountTokensInString(m.toolCalls[k].arguments);
      n := n + a + b + 3;
    }
    assert m.toolCalls[..|m.toolCalls|] == m.toolCalls;
    if m.toolCallId != "" {
      t := CountTokensInString(m.toolCallId);
      n := n + t;
    }
    if m.toolName != "" {
      t := CountTokensInString(m.toolName);
      n := n + t;
    }
    n := AddPartTokens(n, m.userParts);
    n := AddPartTokens(n, m.genParts);
  }

  /** The counts of defaultCounterToken: one estimate per message, 0 for a nil one. */
  function DefaultCounts(msgs: seq<Slot>): (r: seq<int>)
    ensures |r| == |msgs|
  {
    seq(|msgs|, i requires 0 <= i < |msgs| => if msgs[i].None? then 0 else EstimatedTokens(msgs[i].value))
  }

  /** defaultCounterToken */
  method DefaultCounter(msgs: seq<Slot>) returns (r: seq<int>)
    ensures r == DefaultCounts(msgs)
  {
    var result := new int[|msgs|];
    for i := 0 to |msgs|
      invariant forall k | 0 <= k < i :: result[k] == (if msgs[k].None? then 0 else EstimatedTokens(msgs[k].value))
    {
      match msgs[i] {
        case None => result[i] := 0;
        case Some(m) =>
          var t := EstimateTokens(m);
          result[i] := t;
      }
    }
    r := result[..];
  }

  // ---------------------------------------------------------------------
  // Blocks

  /** A block: the messages that are kept or summarised together, and their tokens. */
  datatype Block = Block(msgs: seq<Message>, tokens: int)

  /** The messages of slots i until j, nil ones left out, with the sum of their token counts. */
  function Collect(ms: seq<Slot>, ts: seq<int>, i: nat, j: nat): (b: Block)
    requires i <= j <= |ms| && |ts| == |ms|
    ensures |b.msgs| <= j - i
    decreases j
  {
    if j == i then Block([], 0)
    else
      var b := Collect(ms, ts, i, j - 1);
      match ms[j - 1]
      case None => b
      case Some(m) => Block(b.msgs + [m], b.tokens + ts[j - 1])
  }

  /** Collecting over adjacent ranges is collecting over their union. */
  lemma {:induction false} CollectSplit(ms: seq<Slot>, ts: seq<int>, i: nat, j: nat, k: nat)
    requires i <= j <= k <= |ms| && |ts| == |ms|
    ensures Collect(ms, ts, i, k).msgs == Collect(ms, ts, i, j).msgs + Collect(ms, ts, j, k).msgs
    ensures Collect(ms, ts, i, k).tokens == Collect(ms, ts, i, j).tokens + Collect(ms, ts, j, k).tokens
    decreases k
  {
    if k > j {
      CollectSplit(ms, ts, i, j, k - 1);
      if ms[k - 1].Some? {
        AppendAssoc(Collect(ms, ts, i, j).msgs, Collect(ms, ts, j, k - 1).msgs, [ms[k - 1].value]);
      }
    } else {
      assert Collect(ms, ts, i, j).msgs + [] == Collect(ms, ts, i, j).msgs;
    }
  }

  /** A single slot: the message, or nothing for a nil slot. */
  lemma CollectOne(ms: seq<Slot>, ts: seq<int>, i: nat)
    requires i < |ms| && |ts| == |ms|
    ensures Collect(ms, ts, i, i + 1) == if ms[i].None? then Block([], 0) else Block([ms[i].value], ts[i])
  {
    assert Collect(ms, ts, i, i) == Block([], 0);
    var e: seq<Message> := [];
    if ms[i].Some? {
      assert e + [ms[i].value] == [ms[i].value];
    }
  }

  /** The end of the optional leading system message. */
  function SystemEnd(ms: seq<Slot>): (r: nat)
    ensures r <= 1 && r <= |ms|
  {
    if |ms| > 0 && ms[0].Some? && ms[0].value.role == System then 1 else 0
  }

  /** The end of the run of user messages (and nil slots) from i. */
  function UserEnd(ms: seq<Slot>, i: nat): (r: nat)
    requires i <= |ms|
    ensures i <= r <= |ms|
    decreases |ms| - i
  {
    if i < |ms| && (ms[i].None? || ms[i].value.role == User) then UserEnd(ms, i + 1) else i
  }

  /** The end of the optional previous summary at i. */
  function SummaryEnd(ms: seq<Slot>, i: nat): (r: nat)
    requires i <= |ms|
    ensures i <= r <= |ms| && r <= i + 1
  {
    if i < |ms| && ms[i].Some? && ms[i].value.role == Assistant && ms[i].value.isSummary then i + 1 else i
  }

  /** Where the conversation proper starts. */
  function BodyStart(ms: seq<Slot>): (r: nat)
    ensures r <= |ms|
  {
    SummaryEnd(ms, UserEnd(ms, SystemEnd(ms)))
  }

  /** The ids of a message's tool calls. */
  function CallIds(calls: seq<ToolCall>): set<string> {
    set k | 0 <= k < |calls| :: calls[k].id
  }

  /** The slot at j is a tool reply that belongs with the calls `ids`: no id, or one of them. */
  predicate Replies(ms: seq<Slot>, j: nat, ids: set<string>) {
    j < |ms| && ms[j].Some? && ms[j].value.role == Tool
    && (ms[j].value.toolCallId == "" || ms[j].value.toolCallId in ids)
  }

  /** The end of the run of replies from j. */
  function PairEnd(ms: seq<Slot>, j: nat, ids: set<string>): (r: nat)
    requires j <= |ms|
    ensures j <= r <= |ms|
    decreases |ms| - j
  {
    if Replies(ms, j, ids) then PairEnd(ms, j + 1, ids) else j
  }

  /** An assistant message that calls tools. */
  predicate CallsTools(m: Message) {
    m.role == Assistant && |m.toolCalls| > 0
  }

  /** The end of the block that starts with the message at i. */
  function BlockEnd(ms: seq<Slot>, i: nat): (r: nat)
    requires i < |ms| && ms[i].Some?
    ensures i < r <= |ms|
  {
    if CallsTools(ms[i].value) then PairEnd(ms, i + 1, CallIds(ms[i].value.toolCalls)) else i + 1
  }

  /** The blocks of the conversation from i on, nil slots skipped. */
  function BlocksFrom(ms: seq<Slot>, ts: seq<int>, i: nat): seq<Block>
    requires i <= |ms| && |ts| == |ms|
    decreases |ms| - i
  {
    if i == |ms| then []
    else if ms[i].None? then BlocksFrom(ms, ts, i + 1)
    else [Collect(ms, ts, i, BlockEnd(ms, i))] + BlocksFrom(ms, ts, BlockEnd(ms, i))
  }

  /** All messages of a list of blocks, in order. */
  function Flatten(bs: seq<Block>): seq<Message> {
    if |bs| == 0 then [] else bs[0].msgs + Flatten(bs[1..])
  }

  /** The tokens of a list of blocks. */
  function BlockTokens(bs: seq<Block>): int {
    if |bs| == 0 then 0 else bs[0].tokens + BlockTokens(bs[1..])
  }

  lemma {:induction false} FlattenAppend(a: seq<Block>, b: seq<Block>)
    ensures Flatten(a + b) == Flatten(a) + Flatten(b)
    decreases |a|
  {
    if |a| == 0 {
      assert a + b == b;
    } else {
      assert (a + b)[1..] == a[1..] + b;
      FlattenAppend(a[1..], b);
      AppendAssoc(a[0].msgs, Flatten(a[1..]), Flatten(b));
    }
  }

  /** The blocks from i hold every non-nil message from i on, in order, and their tokens. */
  lemma {:induction false} BlocksCover(ms: seq<Slot>, ts: seq<int>, i: nat)
    requires i <= |ms| && |ts| == |ms|
    ensures Flatten(BlocksFrom(ms, ts, i)) == Collect(ms, ts, i, |ms|).msgs
    ensures BlockTokens(BlocksFrom(ms, ts, i)) == Collect(ms, ts, i, |ms|).tokens
    decreases |ms| - i
  {
    if i < |ms| {
      var e := if ms[i].None? then i + 1 else BlockEnd(ms, i);
      BlocksCover(ms, ts, e);
      CollectSplit(ms, ts, i, e, |ms|);
      if ms[i].None? {
        CollectOne(ms, ts, i);
        assert [] + Collect(ms, ts, e, |ms|).msgs == Collect(ms, ts, e, |ms|).msgs;
      } else {
        var bs := BlocksFrom(ms, ts, i);
        assert bs[1..] == BlocksFrom(ms, ts, e);
      }
    }
  }

  /** Every slot of a run of replies is a reply to the calls. */
  lemma {:induction false} PairedReplies(ms: seq<Slot>, j: nat, ids: set<string>, k: nat)
    requires j <= |ms| && j <= k < PairEnd(ms, j, ids)
    ensures Replies(ms, k, ids)
    decreases |ms| - j
  {
    if j < k {
      PairedReplies(ms, j + 1, ids, k);
    }
  }

  // ---------------------------------------------------------------------
  // Recent and older blocks

  datatype Selection = Selection(recent: seq<Block>, older: seq<Block>, used: int)

  /**
   * The newest-first selection: a block is kept when it still fits the
   * budget on top of the newer blocks kept so far, and is summarised
   * otherwise.
   */
  function Select(bs: seq<Block>, budget: int): Selection {
    if |bs| == 0 then Selection([], [], 0)
    else
      var r := Select(bs[1..], budget);
      if r.used + bs[0].tokens > budget then Selection(r.recent, [bs[0]] + r.older, r.used)
      else Selection([bs[0]] + r.recent, r.older, r.used + bs[0].tokens)
  }

  /** `r` and `o` split `bs` between them, each keeping the order of `bs`. */
  predicate Interleaves(bs: seq<Block>, r: seq<Block>, o: seq<Block>)
    decreases |bs|
  {
    if |bs| == 0 then r == [] && o == []
    else ((|r| > 0 && r[0] == bs[0] && Interleaves(bs[1..], r[1..], o))
          || (|o| > 0 && o[0] == bs[0] && Interleaves(bs[1..], r, o[1..])))
  }

  /**
   * The selection keeps the order of the blocks and splits them, the kept
   * blocks fit the budget, and the newest block is kept whenever it fits.
   */
  lemma {:induction false} SelectSpec(bs: seq<Block>, budget: int)
    requires budget >= 0
    ensures Interleaves(bs, Select(bs, budget).recent, Select(bs, budget).older)
    ensures Select(bs, budget).used == BlockTokens(Select(bs, budget).recent) <= budget
    ensures |bs| > 0 && bs[|bs| - 1].tokens <= budget ==>
      |Select(bs, budget).recent| > 0 && Select(bs, budget).recent[|Select(bs, budget).recent| - 1] == bs[|bs| - 1]
  {
    if |bs| > 0 {
      var r := Select(bs[1..], budget);
      SelectSpec(bs[1..], budget);
      var s := Select(bs, budget);
      if r.used + bs[0].tokens > budget {
        assert s.older[1..] == r.older;
      } else {
        assert s.recent[1..] == r.recent;
      }
      if |bs| == 1 {
        assert s.recent == [bs[0]] || bs[0].tokens > budget;
      } else {
        assert bs[1..][|bs[1..]| - 1] == bs[|bs| - 1];
      }
    }
  }

  /** Blocks split by an interleaving are all there: their multisets add up. */
  lemma {:induction false} InterleavesMultiset(bs: seq<Block>, r: seq<Block>, o: seq<Block>)
    requires Interleaves(bs, r, o)
    ensures multiset(r) + multiset(o) == multiset(bs)
    decreases |bs|
  {
    if |bs| > 0 {
      HeadTail(bs);
      if |r| > 0 && r[0] == bs[0] && Interleaves(bs[1..], r[1..], o) {
        InterleavesMultiset(bs[1..], r[1..], o);
        HeadTail(r);
        assert multiset(r) == multiset{r[0]} + multiset(r[1..]) by {
          assert r == [r[0]] + r[1..];
        }
      } else {
        InterleavesMultiset(bs[1..], r, o[1..]);
        HeadTail(o);
        assert multiset(o) == multiset{o[0]} + multiset(o[1..]) by {
          assert o == [o[0]] + o[1..];
        }
      }
      assert multiset(bs) == multiset{bs[0]} + multiset(bs[1..]) by {
        assert bs == [bs[0]] + bs[1..];
      }
    }
  }

  // ---------------------------------------------------------------------
  // The loops of BeforeModel

  /** The sum of the token counts. */
  function Sum(ts: seq<int>): int {
    if |ts| == 0 then 0 else Sum(ts[..|ts| - 1]) + ts[|ts| - 1]
  }

  /** The total the threshold is compared with. */
  method SumTokens(ts: seq<int>) returns (total: int)
    ensures total == Sum(ts)
  {
    total := 0;
    for i := 0 to |ts|
      invariant total == Sum(ts[..i])
    {
      assert ts[..i + 1][..i] == ts[..i];
      total := total + ts[i];
    }
    assert ts[..|ts|] == ts;
  }

  /** The leading system, user and previous-summary blocks, and the index after them. */
  method LeadingBlocks(ms: seq<Slot>, ts: seq<int>) returns (system: Block, user: Block, summary: Block, idx: nat)
    requires |ts| == |ms|
    ensures system == Collect(ms, ts, 0, SystemEnd(ms))
    ensures user == Collect(ms, ts, SystemEnd(ms), UserEnd(ms, SystemEnd(ms)))
    ensures summary == Collect(ms, ts, UserEnd(ms, SystemEnd(ms)), BodyStart(ms))
    ensures idx == BodyStart(ms)
  {
    idx := 0;
    system := Block([], 0);
    if idx < |ms| && ms[idx].Some? && ms[idx].value.role == System {
      CollectOne(ms, ts, idx);
      system := Block([ms[idx].value], ts[idx]);
      idx := idx + 1;
    }
    var s0 := idx;
    user := Block([], 0);
    while idx < |ms|
      invariant s0 <= idx <= |ms|
      invariant UserEnd(ms, idx) == UserEnd(ms, s0)
      invariant user == Collect(ms, ts, s0, idx)
      decreases |ms| - idx
    {
      if ms[idx].None? {
        idx := idx + 1;
        continue;
      }
      if ms[idx].value.role != User {
        break;
      }
      user := Block(user.msgs + [ms[idx].value], user.tokens + ts[idx]);
      idx := idx + 1;
    }
    summary := Block([], 0);
    if idx < |ms| && ms[idx].Some? && ms[idx].value.role == Assistant && ms[idx].value.isSummary {
      CollectOne(ms, ts, idx);
      summary := Block([ms[idx].value], ts[idx]);
      idx := idx + 1;
    }
  }

  /** The call ids of a message, gathered one call at a time. */
  method GatherCallIds(calls: seq<ToolCall>) returns (ids: set<string>)
    ensures ids == CallIds(calls)
  {
    ids := {};
    for k := 0 to |calls|
      invariant ids == CallIds(calls[..k])
    {
      assert calls[..k + 1][..k] == calls[..k];
      assert CallIds(calls[..k + 1]) == CallIds(calls[..k]) + {calls[k].id} by {
        assert calls[..k + 1][k] == calls[k];
      }
      ids := ids + {calls[k].id};
    }
    assert calls[..|calls|] == calls;
  }

  /** An assistant tool call and the replies that follow it. */
  method PairTools(ms: seq<Slot>, ts: seq<int>, i: nat) returns (b: Block, j: nat)
    requires i < |ms| && |ts| == |ms| && ms[i].Some? && CallsTools(ms[i].value)
    ensures j == BlockEnd(ms, i)
    ensures b == Collect(ms, ts, i, j)
  {
    CollectOne(ms, ts, i);
    b := Block([ms[i].value], ts[i]);
    var ids := GatherCallIds(ms[i].value.toolCalls);
    j := i + 1;
    while j < |ms|
      invariant i + 1 <= j <= |ms|
      invariant PairEnd(ms, j, ids) == PairEnd(ms, i + 1, ids)
      invariant b == Collect(ms, ts, i, j)
      decreases |ms| - j
    {
      if ms[j].None? || ms[j].value.role != Tool {
        break;
      }
      var nm := ms[j].value;
      if nm.toolCallId == "" {
        b := Block(b.msgs + [nm], b.tokens + ts[j]);
      } else {
        if nm.toolCallId !in ids {
          break;
        }
        b := Block(b.msgs + [nm], b.tokens + ts[j]);
      }
      j := j + 1;
    }
  }

  /** The blocks of the conversation after the leading blocks. */
  method BuildBlocks(ms: seq<Slot>, ts: seq<int>, start: nat) returns (bs: seq<Block>)
    requires start <= |ms| && |ts| == |ms|
    ensures bs == BlocksFrom(ms, ts, start)
  {
    bs := [];
    var i := start;
    while i < |ms|
      invariant start <= i <= |ms|
      invariant BlocksFrom(ms, ts, start) == bs + BlocksFrom(ms, ts, i)
      decreases |ms| - i
    {
      if ms[i].None? {
        i := i + 1;
        continue;
      }
      var b: Block;
      var e: nat;
      if CallsTools(ms[i].value) {
        b, e := PairTools(ms, ts, i);
      } else {
        CollectOne(ms, ts, i);
        b, e := Block([ms[i].value], ts[i]), i + 1;
      }
      AppendAssoc(bs, [b], BlocksFrom(ms, ts, e));
      bs := bs + [b];
      i := e;
    }
    assert bs + [] == bs;
  }

  /** The newest-first split into recent and older blocks. */
  method SplitRecent(bs: seq<Block>, budget: int) returns (recent: seq<Block>, older: seq<Block>, used: int)
    ensures Selection(recent, older, used) == Select(bs, budget)
  {
    recent, older, used := [], [], 0;
    var i := |bs|;
    while i > 0
      invariant 0 <= i <= |bs|
      invariant Selection(recent, older, used) == Select(bs[i..], budget)
      decreases i
    {
      i := i - 1;
      assert bs[i..][1..] == bs[i + 1..];
      var b := bs[i];
      if used + b.tokens > budget {
        older := [b] + older;
      } else {
        recent := [b] + recent;
        used := used + b.tokens;
      }
    }
    assert bs[0..] == bs;
  }

  // ---------------------------------------------------------------------
  // BeforeModel

  /** The message that replaces the older blocks. */
  function SummaryMessage(content: string): Message {
    Message(Assistant, content, [], "", "", [], [], true)
  }

  /** Messages as non-nil slots. */
  function Slots(xs: seq<Message>): (r: seq<Slot>)
    ensures |r| == |xs| && forall k | 0 <= k < |xs| :: r[k] == Some(xs[k])
  {
    seq(|xs|, k requires 0 <= k < |xs| => Some(xs[k]))
  }

  /** The conversation after compaction: system, user messages, the new summary, the recent blocks. */
  function Compacted(ms: seq<Slot>, ts: seq<int>, budget: int, summaryText: string): seq<Message>
    requires |ts| == |ms|
  {
    Collect(ms, ts, 0, SystemEnd(ms)).msgs
      + Collect(ms, ts, SystemEnd(ms), UserEnd(ms, SystemEnd(ms))).msgs
      + [SummaryMessage(summaryText)]
      + Flatten(Select(BlocksFrom(ms, ts, BodyStart(ms)), budget).recent)
  }

  /** What the summariser is given: the leading blocks and the older and recent blocks. */
  datatype SummaryRequest = SummaryRequest(system: Block, user: Block, previous: Block,
                                           older: seq<Block>, recent: seq<Block>)

  function RequestOf(ms: seq<Slot>, ts: seq<int>, budget: int): SummaryRequest
    requires |ts| == |ms|
  {
    var sel := Select(BlocksFrom(ms, ts, BodyStart(ms)), budget);
    SummaryRequest(Collect(ms, ts, 0, SystemEnd(ms)),
                   Collect(ms, ts, SystemEnd(ms), UserEnd(ms, SystemEnd(ms))),
                   Collect(ms, ts, UserEnd(ms, SystemEnd(ms)), BodyStart(ms)),
                   sel.older, sel.recent)
  }

  datatype CountResult = Counted(tokens: seq<int>) | CountFailed(err: string)
  datatype SummaryResult = Summarised(content: string) | SummaryFailed(err: string)

  /** summaryMiddleware: the budgets, the token counter and the summariser. */
  datatype Middleware = Middleware(counter: seq<Slot> -> CountResult, maxBefore: int, maxRecent: int,
                                   summarizer: SummaryRequest -> SummaryResult)

  /** ChatModelAgentState: the messages the model is about to see. */
  class ChatState {
    var messages: seq<Slot>

    constructor(ms: seq<Slot>)
      ensures messages == ms
    {
      messages := ms;
    }
  }

  /**
   * BeforeModel: nothing happens for an empty conversation or one within
   * budget; a failed count, a count of the wrong length or a failed
   * summary is an error and leaves the messages alone; otherwise the
   * messages become the compacted conversation.
   */
  method BeforeModel(mw: Middleware, state: ChatState?) returns (err: Option<string>)
    modifies state
    ensures state == null || |old(state.messages)| == 0 ==> err == None
    ensures state != null && err.Some? ==> state.messages == old(state.messages)
    ensures state != null && |old(state.messages)| > 0 ==>
      var ms := old(state.messages);
      match mw.counter(ms)
      case CountFailed(e) => err == Some("count token failed, err=" + e)
      case Counted(ts) =>
        if |ts| != |ms| then
          err == Some("token count mismatch, msgNum=" + Itoa(|ms|) + ", tokenCountNum=" + Itoa(|ts|))
        else if Sum(ts) <= mw.maxBefore then err == None && state.messages == ms
        else match mw.summarizer(RequestOf(ms, ts, mw.maxRecent))
          case SummaryFailed(e) => err == Some("summarize failed, err=" + e)
          case Summarised(text) => err == None && state.messages == Slots(Compacted(ms, ts, mw.maxRecent, text))
  {
    if state == null || |state.messages| == 0 {
      return None;
    }
    var ms := state.messages;
    var counted := mw.counter(ms);
    if counted.CountFailed? {
      return Some("count token failed, err=" + counted.err);
    }
    var ts := counted.tokens;
    if |ms| != |ts| {
      return Some("token count mismatch, msgNum=" + Itoa(|ms|) + ", tokenCountNum=" + Itoa(|ts|));
    }
    var total := SumTokens(ts);
    if total <= mw.maxBefore {
      return None;
    }
    var system, user, summary, idx := LeadingBlocks(ms, ts);
    var blocks := BuildBlocks(ms, ts, idx);
    var recent, older, used := SplitRecent(blocks, mw.maxRecent);
    var reply := mw.summarizer(SummaryRequest(system, user, summary, older, recent));
    if reply.SummaryFailed? {
      return Some("summarize failed, err=" + reply.err);
    }
    var newMessages := system.msgs + user.msgs + [SummaryMessage(reply.content)];
    var prefix := newMessages;
    for k := 0 to |recent|
      invariant newMessages == prefix + Flatten(recent[..k])
    {
      TakeSnoc(recent, k);
      FlattenAppend(recent[..k], [recent[k]]);
      assert Flatten([recent[k]]) == recent[k].msgs + Flatten([]);
      AppendAssoc(prefix, Flatten(recent[..k]), recent[k].msgs);
      newMessages := newMessages + recent[k].msgs;
    }
    assert recent[..|recent|] == recent;
    state.messages := Slots(newMessages);
    return None;
  }

  /** New's choice of budgets and counter. */
  datatype Config = Config(maxTokensBeforeSummary: int, maxTokensForRecentMessages: int,
                           counter: Option<seq<Slot> -> CountResult>)

  datatype NewResult = Created(mw: Middleware) | NewFailed(err: string)

  /**
   * New: a missing configuration or a summariser that does not compile is
   * an error; a budget that is not positive takes its default, and so does
   * a missing counter.
   */
  function New(cfg: Option<Config>, summarizer: SummaryRequest -> SummaryResult, compileErr: Option<string>): (r: NewResult)
    ensures cfg.None? ==> r == NewFailed("config is nil")
    ensures cfg.Some? && compileErr.Some? ==> r == NewFailed("compile summarizer failed, err=" + compileErr.value)
    ensures r.Created? <==> cfg.Some? && compileErr.None?
    ensures r.Created? ==> r.mw.maxBefore > 0 && r.mw.maxRecent > 0 && r.mw.summarizer == summarizer
    ensures r.Created? ==> r.mw.maxBefore == (if cfg.value.maxTokensBeforeSummary > 0 then cfg.value.maxTokensBeforeSummary
                                             else DefaultMaxTokensBeforeSummary)
    ensures r.Created? ==> r.mw.maxRecent == (if cfg.value.maxTokensForRecentMessages > 0 then cfg.value.maxTokensForRecentMessages
                                             else DefaultMaxTokensForRecentMessages)
    ensures r.Created? && cfg.value.counter.None? ==> forall ms :: r.mw.counter(ms) == Counted(DefaultCounts(ms))
  {
    match cfg
    case None => NewFailed("config is nil")
    case Some(c) =>
      if compileErr.Some? then NewFailed("compile summarizer failed, err=" + compileErr.value)
      else
        var maxBefore := if c.maxTokensBeforeSummary > 0 then c.maxTokensBeforeSummary else DefaultMaxTokensBeforeSummary;
        var maxRecent := if c.maxTokensForRecentMessages > 0 then c.maxTokensForRecentMessages else DefaultMaxTokensForRecentMessages;
        var counter := if c.counter.Some? then c.counter.value else (ms: seq<Slot>) => Counted(DefaultCounts(ms));
        Created(Middleware(counter, maxBefore, maxRecent, summarizer))
  }

  // ---------------------------------------------------------------------
  // Properties of the partition

  /** The leading blocks and the body blocks hold every non-nil message, in order, with all their tokens. */
  lemma PartitionCovers(ms: seq<Slot>, ts: seq<int>)
    requires |ts| == |ms|
    ensures Collect(ms, ts, 0, SystemEnd(ms)).msgs
          + Collect(ms, ts, SystemEnd(ms), UserEnd(ms, SystemEnd(ms))).msgs
          + Collect(ms, ts, UserEnd(ms, SystemEnd(ms)), BodyStart(ms)).msgs
          + Flatten(BlocksFrom(ms, ts, BodyStart(ms)))
         == Collect(ms, ts, 0, |ms|).msgs
    ensures Collect(ms, ts, 0, SystemEnd(ms)).tokens
          + Collect(ms, ts, SystemEnd(ms), UserEnd(ms, SystemEnd(ms))).tokens
          + Collect(ms, ts, UserEnd(ms, SystemEnd(ms)), BodyStart(ms)).tokens
          + BlockTokens(BlocksFrom(ms, ts, BodyStart(ms)))
         == Collect(ms, ts, 0, |ms|).tokens
  {
    var a, b, c := SystemEnd(ms), UserEnd(ms, SystemEnd(ms)), BodyStart(ms);
    BlocksCover(ms, ts, c);
    CollectSplit(ms, ts, b, c, |ms|);
    CollectSplit(ms, ts, a, b, |ms|);
    CollectSplit(ms, ts, 0, a, |ms|);
    Regroup(Collect(ms, ts, 0, a).msgs, Collect(ms, ts, a, b).msgs, Collect(ms, ts, b, c).msgs,
            Flatten(BlocksFrom(ms, ts, c)));
  }

  lemma Regroup<T>(a: seq<T>, b: seq<T>, c: seq<T>, d: seq<T>)
    ensures a + b + c + d == a + (b + (c + d))
  {
  }

  /** Slots that are all nil or user messages collect to user messages only. */
  lemma {:induction false} CollectUsers(ms: seq<Slot>, ts: seq<int>, i: nat, j: nat)
    requires i <= j <= |ms| && |ts| == |ms|
    requires forall k | i <= k < j :: ms[k].None? || ms[k].value.role == User
    ensures forall m | m in Collect(ms, ts, i, j).msgs :: m.role == User
    decreases j
  {
    if j > i {
      CollectUsers(ms, ts, i, j - 1);
    }
  }

  /** UserEnd stops at the first slot that is a message of another role. */
  lemma {:induction false} UserEndSpec(ms: seq<Slot>, i: nat)
    requires i <= |ms|
    ensures forall k | i <= k < UserEnd(ms, i) :: ms[k].None? || ms[k].value.role == User
    ensures UserEnd(ms, i) < |ms| ==> ms[UserEnd(ms, i)].Some? && ms[UserEnd(ms, i)].value.role != User
    decreases |ms| - i
  {
    if i < |ms| && (ms[i].None? || ms[i].value.role == User) {
      UserEndSpec(ms, i + 1);
    }
  }

  /** The leading blocks have the roles they are named for. */
  lemma LeadingBlockRoles(ms: seq<Slot>, ts: seq<int>)
    requires |ts| == |ms|
    ensures forall m | m in Collect(ms, ts, 0, SystemEnd(ms)).msgs :: m.role == System
    ensures forall m | m in Collect(ms, ts, SystemEnd(ms), UserEnd(ms, SystemEnd(ms))).msgs :: m.role == User
    ensures forall m | m in Collect(ms, ts, UserEnd(ms, SystemEnd(ms)), BodyStart(ms)).msgs ::
      m.role == Assistant && m.isSummary
    ensures |Collect(ms, ts, 0, SystemEnd(ms)).msgs| <= 1
    ensures |Collect(ms, ts, UserEnd(ms, SystemEnd(ms)), BodyStart(ms)).msgs| <= 1
  {
    var a := SystemEnd(ms);
    var b := UserEnd(ms, a);
    if a == 1 {
      CollectOne(ms, ts, 0);
    }
    UserEndSpec(ms, a);
    CollectUsers(ms, ts, a, b);
    if BodyStart(ms) > b {
      CollectOne(ms, ts, b);
    }
  }

  /** Slots without a nil collect to exactly their messages. */
  lemma {:induction false} CollectSlots(xs: seq<Message>, ts: seq<int>, i: nat, j: nat)
    requires i <= j <= |xs| && |ts| == |xs|
    ensures Collect(Slots(xs), ts, i, j).msgs == xs[i..j]
    decreases j
  {
    if j > i {
      CollectSlots(xs, ts, i, j - 1);
      SliceSnoc(xs, i, j - 1);
    }
  }

  /** A block of the body: its first message, then (after a tool call only) replies to that call. */
  lemma BlockShape(ms: seq<Slot>, ts: seq<int>, i: nat)
    requires i < |ms| && |ts| == |ms| && ms[i].Some?
    ensures |Collect(ms, ts, i, BlockEnd(ms, i)).msgs| >= 1
    ensures Collect(ms, ts, i, BlockEnd(ms, i)).msgs[0] == ms[i].value
    ensures !CallsTools(ms[i].value) ==> Collect(ms, ts, i, BlockEnd(ms, i)).msgs == [ms[i].value]
    ensures forall k | 1 <= k < |Collect(ms, ts, i, BlockEnd(ms, i)).msgs| ::
      Collect(ms, ts, i, BlockEnd(ms, i)).msgs[k].role == Tool
      && (Collect(ms, ts, i, BlockEnd(ms, i)).msgs[k].toolCallId == ""
          || Collect(ms, ts, i, BlockEnd(ms, i)).msgs[k].toolCallId in CallIds(ms[i].value.toolCalls))
  {
    var e := BlockEnd(ms, i);
    var ids := CallIds(ms[i].value.toolCalls);
    var b := Collect(ms, ts, i, e);
    CollectOne(ms, ts, i);
    if CallsTools(ms[i].value) {
      RunCollects(ms, ts, i, e, ids);
      forall k | 1 <= k < |b.msgs|
        ensures b.msgs[k].role == Tool && (b.msgs[k].toolCallId == "" || b.msgs[k].toolCallId in ids)
      {
        var at := i + k;
        assert Replies(ms, at, ids) && b.msgs[at - i] == ms[at].value;
      }
    }
  }

  /** A tool call followed by a run of replies collects to the call and then those replies, slot by slot. */
  lemma {:induction false} RunCollects(ms: seq<Slot>, ts: seq<int>, i: nat, j: nat, ids: set<string>)
    requires i < |ms| && |ts| == |ms| && ms[i].Some? && i < j <= PairEnd(ms, i + 1, ids)
    ensures |Collect(ms, ts, i, j).msgs| == j - i
    ensures Collect(ms, ts, i, j).msgs[0] == ms[i].value
    ensures forall k | i < k < j :: Replies(ms, k, ids) && Collect(ms, ts, i, j).msgs[k - i] == ms[k].value
    decreases j
  {
    if j == i + 1 {
      CollectOne(ms, ts, i);
    } else {
      PairedReplies(ms, i + 1, ids, j - 1);
      RunCollects(ms, ts, i, j - 1, ids);
      var p := Collect(ms, ts, i, j - 1).msgs;
      assert Collect(ms, ts, i, j).msgs == p + [ms[j - 1].value];
    }
  }

  /** A run of user messages from i that ends with a message of another role at j ends there. */
  lemma {:induction false} UserEndAt(ms: seq<Slot>, i: nat, j: nat)
    requires i <= j < |ms|
    requires forall k | i <= k < j :: ms[k].Some? && ms[k].value.role == User
    requires ms[j].Some? && ms[j].value.role != User
    ensures UserEnd(ms, i) == j
    decreases j - i
  {
    if i < j {
      UserEndAt(ms, i + 1, j);
    }
  }

  /** The four pieces of a compacted conversation, cut apart again. */
  lemma Pieces<T>(s: seq<T>, u: seq<T>, x: T, r: seq<T>, xs: seq<T>)
    requires xs == s + u + [x] + r
    ensures xs[..|s|] == s && xs[|s|..|s| + |u|] == u
    ensures xs[|s| + |u|] == x && xs[|s| + |u| + 1..] == r
  {
  }

  /** Where the partition cuts a conversation laid out as system, user messages, a summary and the rest. */
  lemma LayoutBounds(sys: seq<Message>, usr: seq<Message>, sm: Message, rec: seq<Message>, n: seq<Slot>)
    requires |sys| <= 1 && (forall m | m in sys :: m.role == System) && (forall m | m in usr :: m.role == User)
    requires sm.role == Assistant && sm.isSummary
    requires n == Slots(sys + usr + [sm] + rec)
    ensures SystemEnd(n) == |sys|
    ensures UserEnd(n, |sys|) == |sys| + |usr|
    ensures BodyStart(n) == |sys| + |usr| + 1
  {
    var xs := sys + usr + [sm] + rec;
    Pieces(sys, usr, sm, rec, xs);
    var a, b := |sys|, |sys| + |usr|;
    assert n[b] == Some(sm);
    forall k | a <= k < b
      ensures n[k].Some? && n[k].value.role == User
    {
      assert n[k] == Some(usr[k - a]);
      assert usr[k - a] in usr;
    }
    UserEndAt(n, a, b);
    if a == 1 {
      assert n[0] == Some(sys[0]) && sys[0] in sys;
    } else if b > 0 {
      assert n[0] == Some(usr[0]) && usr[0] in usr;
    }
  }

  /** A slice of a list of messages, read back from its slots. */
  lemma SliceRecognised(xs: seq<Message>, n: seq<Slot>, ts2: seq<int>, a: nat, b: nat, piece: seq<Message>)
    requires n == Slots(xs) && |ts2| == |n| && a <= b <= |xs| && xs[a..b] == piece
    ensures Collect(n, ts2, a, b).msgs == piece
  {
    CollectSlots(xs, ts2, a, b);
  }

  /** The partition of such a layout gives its pieces back. */
  lemma LayoutRecognised(sys: seq<Message>, usr: seq<Message>, sm: Message, rec: seq<Message>,
                         n: seq<Slot>, ts2: seq<int>)
    requires |sys| <= 1 && (forall m | m in sys :: m.role == System) && (forall m | m in usr :: m.role == User)
    requires sm.role == Assistant && sm.isSummary
    requires n == Slots(sys + usr + [sm] + rec) && |ts2| == |n|
    ensures Collect(n, ts2, 0, SystemEnd(n)).msgs == sys
    ensures Collect(n, ts2, SystemEnd(n), UserEnd(n, SystemEnd(n))).msgs == usr
    ensures Collect(n, ts2, UserEnd(n, SystemEnd(n)), BodyStart(n)).msgs == [sm]
    ensures Collect(n, ts2, BodyStart(n), |n|).msgs == rec
  {
    var xs := sys + usr + [sm] + rec;
    LayoutBounds(sys, usr, sm, rec, n);
    Pieces(sys, usr, sm, rec, xs);
    var a, b, c := SystemEnd(n), UserEnd(n, SystemEnd(n)), BodyStart(n);
    assert a == |sys| && b == |sys| + |usr| && c == b + 1;
    assert xs[b..c] == [sm];
    SliceRecognised(xs, n, ts2, 0, a, sys);
    SliceRecognised(xs, n, ts2, a, b, usr);
    SliceRecognised(xs, n, ts2, b, c, [sm]);
    SliceRecognised(xs, n, ts2, c, |xs|, rec);
  }

  /**
   * Compacting twice sees the first compaction's result: run through the
   * partition again, the compacted conversation gives back the same system
   * and user blocks, the new summary as the previous summary, and the kept
   * blocks as the body, whatever the new token counts.
   */
  lemma CompactionRecognised(ms: seq<Slot>, ts: seq<int>, budget: int, text: string,
                             n: seq<Slot>, ts2: seq<int>)
    requires |ts| == |ms| && n == Slots(Compacted(ms, ts, budget, text)) && |ts2| == |n|
    ensures Collect(n, ts2, 0, SystemEnd(n)).msgs == Collect(ms, ts, 0, SystemEnd(ms)).msgs
    ensures Collect(n, ts2, SystemEnd(n), UserEnd(n, SystemEnd(n))).msgs
         == Collect(ms, ts, SystemEnd(ms), UserEnd(ms, SystemEnd(ms))).msgs
    ensures Collect(n, ts2, UserEnd(n, SystemEnd(n)), BodyStart(n)).msgs == [SummaryMessage(text)]
    ensures Collect(n, ts2, BodyStart(n), |n|).msgs == Flatten(Select(BlocksFrom(ms, ts, BodyStart(ms)), budget).recent)
  {
    LeadingBlockRoles(ms, ts);
    LayoutRecognised(Collect(ms, ts, 0, SystemEnd(ms)).msgs,
                     Collect(ms, ts, SystemEnd(ms), UserEnd(ms, SystemEnd(ms))).msgs,
                     SummaryMessage(text),
                     Flatten(Select(BlocksFrom(ms, ts, BodyStart(ms)), budget).recent), n, ts2);
  }
}
