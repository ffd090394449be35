/**
 The Anthropic wire mapping (adapters/anthropic.py): results of one assistant turn are
 grouped into the single user message that follows it, and provider state is replayed.
 */
module Anthropic {
  import opened Options
  import opened Conversation

  const PROVIDER := "anthropic"

  datatype Role = User | Assistant

  datatype WireMessage = WireMessage(role: Role, content: seq<Block>)

  predicate IsToolResultMessage(w: WireMessage) {
    w.role == User && w.content != [] && w.content[0].ToolResult?
  }

  function UseBlocks(calls: seq<ToolCall>): seq<Block> {
    if calls == [] then [] else
      var c := calls[|calls| - 1];
      UseBlocks(calls[..|calls| - 1]) + [ToolUse(c.id, c.name, c.args)]
  }

  // The content blocks one message stands for.
  function Blocks(m: Message): seq<Block> {
    match m
    case UserMessage(text) => [Text(text)]
    case AssistantMessage(text, calls, state) =>
      if state.Some? && state.value.provider == PROVIDER then state.value.payload
      else (if text.Some? && text.value != "" then [Text(text.value)] else []) + UseBlocks(calls)
    case ToolResultMessage(id, content, isError) => [ToolResult(id, content, isError)]
  }

  function WireStep(wire: seq<WireMessage>, m: Message): seq<WireMessage> {
    if m.ToolResultMessage? && wire != [] && IsToolResultMessage(wire[|wire| - 1])
    then wire[|wire| - 1 := WireMessage(User, wire[|wire| - 1].content + Blocks(m))]
    else wire + [WireMessage(if m.AssistantMessage? then Assistant else User, Blocks(m))]
  }

  function Wire(ms: seq<Message>): seq<WireMessage> {
    if ms == [] then [] else WireStep(Wire(ms[..|ms| - 1]), ms[|ms| - 1])
  }

  method ToWireMessages(messages: seq<Message>) returns (wire: seq<WireMessage>)
    ensures wire == Wire(messages)
  {
    wire := [];
    for i := 0 to |messages|
      invariant wire == Wire(messages[..i])
    {
      assert messages[..i + 1][..i] == messages[..i];
      match messages[i] {
        case UserMessage(text) =>
          wire := wire + [WireMessage(User, [Text(text)])];
        case AssistantMessage(text, calls, state) =>
          if state.Some? && state.value.provider == PROVIDER {
            wire := wire + [WireMessage(Assistant, state.value.payload)];
            continue;
          }
          var content: seq<Block> := [];
          if text.Some? && text.value != "" {
            content := content + [Text(text.value)];
          }
          ghost var opening := content;
          for j := 0 to |calls|
            invariant content == opening + UseBlocks(calls[..j])
          {
            assert calls[..j + 1][..j] == calls[..j];
            content := content + [ToolUse(calls[j].id, calls[j].name, calls[j].args)];
          }
          assert calls[..|calls|] == calls;
          assert content == Blocks(messages[i]);
          wire := wire + [WireMessage(Assistant, content)];
        case ToolResultMessage(id, content, isError) =>
          var block := ToolResult(id, content, isError);
          if wire != [] && IsToolResultMessage(wire[|wire| - 1]) {
            var last := wire[|wire| - 1];
            wire := wire[|wire| - 1 := last.(content := last.content + [block])];
          } else {
            wire := wire + [WireMessage(User, [block])];
          }
      }
    }
    assert messages[..|messages|] == messages;
  }

  // --- what a message says ------------------------------------------------------------

  // A turn that is not replayed: its text first, when there is one, then a use per call, in
  // order, with the call's id, name and arguments.
  predicate SaysTurn(blocks: seq<Block>, said: Option<string>, calls: seq<ToolCall>) {
    var texts := if said.Some? && said.value != "" then 1 else 0;
    && |blocks| == texts + |calls|
    && (texts == 1 ==> blocks[0] == Text(said.value))
    && forall i :: 0 <= i < |calls| ==> blocks[texts + i] == ToolUse(calls[i].id, calls[i].name, calls[i].args)
  }

  lemma {:induction false} UseBlocksAre(calls: seq<ToolCall>)
    ensures |UseBlocks(calls)| == |calls|
    ensures forall i :: 0 <= i < |calls| ==>
                          UseBlocks(calls)[i] == ToolUse(calls[i].id, calls[i].name, calls[i].args)
  {
    if calls != [] {
      var n := |calls| - 1;
      UseBlocksAre(calls[..n]);
      assert forall i :: 0 <= i < n ==> calls[..n][i] == calls[i];
    }
  }

  // A user message is its text, a result is its block with its error flag, and a turn with
  // Anthropic state is the replayed payload.
  lemma BlocksSayTheMessage(m: Message)
    ensures m.UserMessage? ==> Blocks(m) == [Text(m.text)]
    ensures m.ToolResultMessage? ==> Blocks(m) == [ToolResult(m.id, m.content, m.isError)]
    ensures m.AssistantMessage? ==>
              if m.state.Some? && m.state.value.provider == "anthropic" then Blocks(m) == m.state.value.payload
              else SaysTurn(Blocks(m), m.said, m.calls)
  {
    hide UseBlocks;
    if m.AssistantMessage? {
      UseBlocksAre(m.calls);
    }
  }

  // --- what a valid conversation is -------------------------------------------------

  predicate Alternates(wire: seq<WireMessage>) {
    forall i :: 0 <= i < |wire| ==> wire[i].role == if i % 2 == 0 then User else Assistant
  }

  predicate OnlyResults(blocks: seq<Block>) {
    forall b :: b in blocks ==> b.ToolResult?
  }

  // Message k + 1 answers message k: one result per use, in order, and nothing else
  // beside the results; when there is no use there is no result either.
  predicate Answers(use: WireMessage, reply: WireMessage) {
    && ResultIds(reply.content) == UseIds(use.content)
    && (UseIds(use.content) != [] ==> OnlyResults(reply.content))
  }

  predicate AnsweredBefore(wire: seq<WireMessage>, end: nat) {
    forall k :: 0 <= k < end && k + 1 < |wire| && k % 2 == 1 ==> Answers(wire[k], wire[k + 1])
  }

  function Flatten(wire: seq<WireMessage>): seq<Block> {
    if wire == [] then [] else Flatten(wire[..|wire| - 1]) + wire[|wire| - 1].content
  }

  function FlattenMessages(ms: seq<Message>): seq<Block> {
    if ms == [] then [] else FlattenMessages(ms[..|ms| - 1]) + Blocks(ms[|ms| - 1])
  }

  // A replayed payload holds the turn's tool uses, in order.  A turn without
  // Anthropic state has no condition.
  predicate Replayable(m: Message) {
    (m.AssistantMessage? && m.state.Some? && m.state.value.provider == PROVIDER)
    ==> UseIds(m.state.value.payload) == CallIds(m.calls)
  }

  predicate AllReplayable(ms: seq<Message>) {
    forall i :: 0 <= i < |ms| ==> Replayable(ms[i])
  }

  lemma {:induction false} UsesOfCalls(calls: seq<ToolCall>)
    ensures UseIds(UseBlocks(calls)) == CallIds(calls)
  {
    if calls != [] {
      var n := |calls| - 1;
      UsesOfCalls(calls[..n]);
      IdsConcat(UseBlocks(calls[..n]), [ToolUse(calls[n].id, calls[n].name, calls[n].args)]);
      assert CallIds(calls) == CallIds(calls[..n]) + [calls[n].id];
    }
  }

  lemma UsesOfTurn(m: Message)
    requires m.AssistantMessage? && Replayable(m)
    ensures UseIds(Blocks(m)) == CallIds(m.calls)
  {
    hide UseBlocks;
    UsesOfCalls(m.calls);
    if m.said.Some? {
      assert UseIds([Text(m.said.value)]) == [];
      IdsConcat([Text(m.said.value)], UseBlocks(m.calls));
    }
    assert [] + UseBlocks(m.calls) == UseBlocks(m.calls);
  }

  // What the wire looks like at each standing of the history.
  ghost predicate Fits(wire: seq<WireMessage>, s: Standing) {
    var n := |wire|;
    && Alternates(wire)
    && match s
       case Opening => wire == []
       case Ready => n % 2 == 1 && AnsweredBefore(wire, n)
       case NeedsContinuation => n > 0 && n % 2 == 0 && AnsweredBefore(wire, n) && UseIds(wire[n - 1].content) == []
       case Owing(calls) =>
         && calls != [] && n > 1
         && if n % 2 == 0
            then AnsweredBefore(wire, n) && UseIds(wire[n - 1].content) == CallIds(calls)
            else
              && AnsweredBefore(wire, n - 2)
              && IsToolResultMessage(wire[n - 1]) && OnlyResults(wire[n - 1].content)
              && UseIds(wire[n - 2].content) == ResultIds(wire[n - 1].content) + CallIds(calls)
       case Broken => true
  }

  lemma Appended(wire: seq<WireMessage>, w: WireMessage)
    requires Alternates(wire) && AnsweredBefore(wire, |wire|)
    requires w.role == if |wire| % 2 == 0 then User else Assistant
    requires |wire| > 0 && |wire| % 2 == 0 ==> Answers(wire[|wire| - 1], w)
    ensures Alternates(wire + [w]) && AnsweredBefore(wire + [w], |wire + [w]|)
  {
  }

  // A result that starts the reply to the last assistant message.
  lemma FirstResultFits(wire: seq<WireMessage>, calls: seq<ToolCall>, m: Message)
    requires Fits(wire, Owing(calls)) && |wire| % 2 == 0
    requires m.ToolResultMessage? && m.id == calls[0].id
    ensures Fits(WireStep(wire, m), After(Owing(calls), m))
  {
    var w := WireMessage(User, Blocks(m));
    var wire' := wire + [w];
    assert ResultIds(w.content) == [m.id];
    assert CallIds(calls) == [m.id] + CallIds(calls[1..]);
    if |calls| == 1 {
      Appended(wire, w);
    } else {
      assert wire'[|wire| - 1] == wire[|wire| - 1];
    }
  }

  // A further result, grouped into the reply.
  lemma NextResultFits(wire: seq<WireMessage>, calls: seq<ToolCall>, m: Message)
    requires Fits(wire, Owing(calls)) && |wire| % 2 == 1
    requires m.ToolResultMessage? && m.id == calls[0].id
    ensures Fits(WireStep(wire, m), After(Owing(calls), m))
  {
    var n := |wire|;
    var content := wire[n - 1].content + Blocks(m);
    Replaced(wire, content);
    NextResultIds(wire[n - 2], wire[n - 1].content, calls, m);
    assert IsToolResultMessage(WireMessage(User, content));
    if |calls| == 1 {
      var wire' := wire[n - 1 := WireMessage(User, content)];
      assert Answers(wire'[n - 2], wire'[n - 1]);
    }
  }

  lemma Replaced(wire: seq<WireMessage>, content: seq<Block>)
    requires |wire| > 1 && |wire| % 2 == 1 && Alternates(wire) && AnsweredBefore(wire, |wire| - 2)
    ensures var wire' := wire[|wire| - 1 := WireMessage(User, content)];
            Alternates(wire') && AnsweredBefore(wire', |wire| - 2) && wire'[|wire| - 2] == wire[|wire| - 2]
  {
  }

  lemma NextResultIds(use: WireMessage, reply: seq<Block>, calls: seq<ToolCall>, m: Message)
    requires calls != [] && m.ToolResultMessage? && m.id == calls[0].id
    requires UseIds(use.content) == ResultIds(reply) + CallIds(calls)
    ensures UseIds(use.content) == ResultIds(reply + Blocks(m)) + CallIds(calls[1..])
  {
    hide UseIds, ResultIds;
    var said, rest := ResultIds(reply), CallIds(calls[1..]);
    ResultAppended(reply, ToolResult(m.id, m.content, m.isError));
    CallIdsTail(calls);
    ConcatAssociates(said, [m.id], rest);
  }

  lemma ResultAppended(reply: seq<Block>, b: Block)
    requires b.ToolResult?
    ensures ResultIds(reply + [b]) == ResultIds(reply) + [b.id]
  {
    assert (reply + [b])[..|reply|] == reply;
  }

  lemma CallIdsTail(calls: seq<ToolCall>)
    requires calls != []
    ensures CallIds(calls) == [calls[0].id] + CallIds(calls[1..])
  {
  }

  lemma UserFits(wire: seq<WireMessage>, s: Standing, m: Message)
    requires Fits(wire, s) && m.UserMessage? && After(s, m) != Broken
    ensures Fits(WireStep(wire, m), After(s, m))
  {
    var w := WireMessage(User, Blocks(m));
    assert ResultIds(w.content) == [];
    Appended(wire, w);
  }

  lemma AssistantFits(wire: seq<WireMessage>, m: Message)
    requires Fits(wire, Ready) && m.AssistantMessage? && Replayable(m)
    ensures Fits(WireStep(wire, m), After(Ready, m))
  {
    hide UseIds, ResultIds, Blocks;
    UsesOfTurn(m);
    Appended(wire, WireMessage(Assistant, Blocks(m)));
  }

  lemma OwedCallsExist(wire: seq<WireMessage>, s: Standing)
    requires Fits(wire, s) && s.Owing?
    ensures s.calls != []
  {
  }

  lemma StepFits(wire: seq<WireMessage>, s: Standing, m: Message)
    requires Fits(wire, s) && After(s, m) != Broken && Replayable(m)
    ensures Fits(WireStep(wire, m), After(s, m))
  {
    hide Fits, WireStep;
    match m {
      case UserMessage(_) =>
        UserFits(wire, s, m);
      case AssistantMessage(_, calls, _) =>
        AssistantFits(wire, m);
      case ToolResultMessage(_, _, _) =>
        OwedCallsExist(wire, s);
        if |wire| % 2 == 0 {
          FirstResultFits(wire, s.calls, m);
        } else {
          NextResultFits(wire, s.calls, m);
        }
    }
  }

  lemma {:induction false} WireFits(ms: seq<Message>)
    requires Stands(ms) != Broken && AllReplayable(ms)
    ensures Fits(Wire(ms), Stands(ms))
  {
    if ms != [] {
      var n := |ms| - 1;
      if Stands(ms[..n]) == Broken {
        assert false;
      }
      WireFits(ms[..n]);
      StepFits(Wire(ms[..n]), Stands(ms[..n]), ms[n]);
    }
  }

  lemma {:induction false} WirePreservesBlocks(ms: seq<Message>)
    ensures Flatten(Wire(ms)) == FlattenMessages(ms)
  {
    if ms != [] {
      var n := |ms| - 1;
      WirePreservesBlocks(ms[..n]);
      var wire := Wire(ms[..n]);
      var wire' := WireStep(wire, ms[n]);
      if |wire'| == |wire| {
        assert wire'[..|wire| - 1] == wire[..|wire| - 1];
      } else {
        assert wire'[..|wire|] == wire;
      }
    }
  }

  // Every well-paired history maps to a valid conversation: the roles strictly
  // alternate and end with the user, the uses of each assistant message are answered
  // in order in the very next message, and no block is lost, added or moved.
  lemma MapsToAConversation(ms: seq<Message>)
    requires Stands(ms) == Ready && AllReplayable(ms)
    ensures var wire := Wire(ms);
            && Alternates(wire) && |wire| % 2 == 1
            && AnsweredBefore(wire, |wire|)
            && Flatten(wire) == FlattenMessages(ms)
  {
    WireFits(ms);
    WirePreservesBlocks(ms);
  }

  // A turn whose Anthropic form has no content at all.
  predicate Silent(m: Message) {
    Blocks(m) == []
  }

  // The wire carries an empty message exactly when the history holds a silent turn.
  lemma {:induction false} EmptyContentExactly(ms: seq<Message>)
    ensures (exists i :: 0 <= i < |Wire(ms)| && Wire(ms)[i].content == [])
            <==> (exists i :: 0 <= i < |ms| && Silent(ms[i]))
  {
    if ms != [] {
      var n := |ms| - 1;
      var wire, wire' := Wire(ms[..n]), Wire(ms);
      EmptyContentExactly(ms[..n]);
      if exists i :: 0 <= i < |wire| && wire[i].content == [] {
        var i :| 0 <= i < |wire| && wire[i].content == [];
        assert wire'[i].content == [];
        var k :| 0 <= k < n && Silent(ms[..n][k]);
        assert Silent(ms[k]);
      } else {
        assert forall k :: 0 <= k < n ==> ms[..n][k] == ms[k];
        assert forall i :: 0 <= i < |wire'| && i < |wire| && wire'[i].content == [] ==> wire[i].content == [];
        assert |wire'| > |wire| ==> wire'[|wire|].content == Blocks(ms[n]);
        if Silent(ms[n]) {
          assert wire'[|wire|].content == [];
        }
      }
    }
  }

  // A turn without Anthropic state is silent exactly when it made no call and said
  // nothing, which is what a billed response with neither text nor calls leaves.
  lemma SilentTurn(text: Option<string>, calls: seq<ToolCall>)
    ensures Silent(AssistantMessage(text, calls, None)) <==> calls == [] && (text.None? || text.value == "")
  {
  }

  // --- what the adapter makes of a response ----------------------------------------------

  function ToolCalls(content: seq<Block>): seq<ToolCall> {
    if content == [] then [] else
      var b := content[|content| - 1];
      ToolCalls(content[..|content| - 1]) + if b.ToolUse? then [ToolCall(b.id, b.name, b.args)] else []
  }

  // The whole content is kept for replay when it holds a thinking block.
  function StateOf(content: seq<Block>): Option<ProviderState> {
    if exists b :: b in content && b.Thinking? then Some(ProviderState(PROVIDER, content)) else None
  }

  // The adapter's own turns always satisfy the replay condition.
  lemma {:induction false} NormalizedIsReplayable(said: Option<string>, content: seq<Block>)
    ensures Replayable(AssistantMessage(said, ToolCalls(content), StateOf(content)))
    ensures UseIds(content) == CallIds(ToolCalls(content))
  {
    if content != [] {
      var n := |content| - 1;
      NormalizedIsReplayable(said, content[..n]);
      if content[n].ToolUse? {
        assert CallIds(ToolCalls(content)) == CallIds(ToolCalls(content[..n])) + [content[n].id];
      }
    }
  }

  function Uses(content: seq<Block>): seq<Block> {
    if content == [] then [] else
      var b := content[|content| - 1];
      Uses(content[..|content| - 1]) + if b.ToolUse? then [b] else []
  }

  // The calls of a response are its tool uses, in order, with their ids, names and
  // arguments; and a response that thinks is replayed whole, with every block of it.
  lemma {:induction false} NormalizedSaysTheContent(said: Option<string>, content: seq<Block>)
    ensures UseBlocks(ToolCalls(content)) == Uses(content)
    ensures (exists b :: b in content && b.Thinking?) ==>
              Blocks(AssistantMessage(said, ToolCalls(content), StateOf(content))) == content
    ensures !(exists b :: b in content && b.Thinking?) ==>
              SaysTurn(Blocks(AssistantMessage(said, ToolCalls(content), StateOf(content))), said, ToolCalls(content))
  {
    hide SaysTurn;
    BlocksSayTheMessage(AssistantMessage(said, ToolCalls(content), StateOf(content)));
    CallsAreUses(content);
  }

  lemma {:induction false} CallsAreUses(content: seq<Block>)
    ensures UseBlocks(ToolCalls(content)) == Uses(content)
  {
    if content != [] {
      var n := |content| - 1;
      CallsAreUses(content[..n]);
      if content[n].ToolUse? {
        var call := ToolCall(content[n].id, content[n].name, content[n].args);
        assert (ToolCalls(content[..n]) + [call])[..|ToolCalls(content[..n])|] == ToolCalls(content[..n]);
      } else {
        assert ToolCalls(content) == ToolCalls(content[..n]);
      }
    }
  }
}
