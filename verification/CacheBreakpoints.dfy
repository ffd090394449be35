/**
 Cache breakpoints (adapters/anthropic.py): markers on the last messages of a request,
 put there without changing what the request says.
 */
module CacheBreakpoints {
  import opened Options
  import opened Conversation
  import opened Anthropic

  const CACHE_LOOKBACK_BLOCKS: nat := 20

  datatype Marked = Marked(block: Block, marker: bool)

  datatype MarkedMessage = MarkedMessage(role: Role, content: seq<Marked>)

  // --- the request, with and without markers ----------------------------------------------

  function Bare(content: seq<Block>): (r: seq<Marked>)
    ensures |r| == |content| && forall i :: 0 <= i < |r| ==> r[i] == Marked(content[i], false)
  {
    seq(|content|, i requires 0 <= i < |content| => Marked(content[i], false))
  }

  // A request before any marker is placed.
  function Unmarked(wire: seq<WireMessage>): (r: seq<MarkedMessage>)
    ensures |r| == |wire| && forall i :: 0 <= i < |r| ==> r[i] == MarkedMessage(wire[i].role, Bare(wire[i].content))
  {
    seq(|wire|, i requires 0 <= i < |wire| => MarkedMessage(wire[i].role, Bare(wire[i].content)))
  }

  function StripContent(content: seq<Marked>): (r: seq<Block>)
    ensures |r| == |content| && forall i :: 0 <= i < |r| ==> r[i] == content[i].block
  {
    seq(|content|, i requires 0 <= i < |content| => content[i].block)
  }

  // What the model sees of a request.
  function Strip(wire: seq<MarkedMessage>): (r: seq<WireMessage>)
    ensures |r| == |wire|
    ensures forall i :: 0 <= i < |r| ==> r[i] == WireMessage(wire[i].role, StripContent(wire[i].content))
  {
    seq(|wire|, i requires 0 <= i < |wire| => WireMessage(wire[i].role, StripContent(wire[i].content)))
  }

  // --- placing the markers ------------------------------------------------------------------

  predicate IsCacheable(b: Block) {
    !b.Thinking?
  }

  // The index of the last block that may carry a marker, or -1.
  function LastCacheable(content: seq<Marked>): int {
    if content == [] then -1
    else if IsCacheable(content[|content| - 1].block) then |content| - 1
    else LastCacheable(content[..|content| - 1])
  }

  lemma {:induction false} LastCacheableIsLast(content: seq<Marked>)
    ensures var k := LastCacheable(content);
            && -1 <= k < |content|
            && (k >= 0 ==> IsCacheable(content[k].block))
            && forall i :: k < i < |content| ==> !IsCacheable(content[i].block)
  {
    if content != [] && !IsCacheable(content[|content| - 1].block) {
      LastCacheableIsLast(content[..|content| - 1]);
    }
  }

  function Annotated(m: MarkedMessage): MarkedMessage {
    var k := LastCacheable(m.content);
    if 0 <= k < |m.content| then m.(content := m.content[k := m.content[k].(marker := true)]) else m
  }

  predicate NeedsTwo(wire: seq<MarkedMessage>) {
    |wire| >= 2 && |wire[|wire| - 1].content| + |wire[|wire| - 2].content| > CACHE_LOOKBACK_BLOCKS
  }

  // The markers of one request.
  function Placed(wire: seq<MarkedMessage>): seq<MarkedMessage> {
    var n := |wire|;
    if n == 0 then wire
    else if NeedsTwo(wire) then wire[n - 2 := Annotated(wire[n - 2])][n - 1 := Annotated(wire[n - 1])]
    else wire[n - 1 := Annotated(wire[n - 1])]
  }

  class Request {
    var wire: seq<MarkedMessage>

    constructor (wire: seq<WireMessage>)
      ensures this.wire == Unmarked(wire)
    {
      this.wire := Unmarked(wire);
    }

    method AnnotateLastCacheableBlock(at: nat)
      requires at < |wire|
      modifies this
      ensures wire == old(wire)[at := Annotated(old(wire)[at])]
    {
      var content := wire[at].content;
      var index := |content| - 1;
      assert content[..|content|] == content;
      while index >= 0
        invariant -1 <= index < |content|
        invariant LastCacheable(content) == LastCacheable(content[..index + 1])
      {
        assert content[..index + 1][..index] == content[..index];
        if IsCacheable(content[index].block) {
          wire := wire[at := wire[at].(content := content[index := content[index].(marker := true)])];
          return;
        }
        index := index - 1;
      }
    }

    method PlaceMessageBreakpoints()
      modifies this
      ensures wire == Placed(old(wire))
    {
      if wire == [] {
        return;
      }
      var targets := [|wire| - 1];
      if |wire| >= 2 {
        var turnBlocks := |wire[|wire| - 1].content| + |wire[|wire| - 2].content|;
        if turnBlocks > CACHE_LOOKBACK_BLOCKS {
          targets := [|wire| - 2] + targets;
        }
      }
      if |targets| == 2 {
        AnnotateLastCacheableBlock(targets[0]);
      }
      AnnotateLastCacheableBlock(targets[|targets| - 1]);
    }
  }

  // --- the markers change nothing the model sees ----------------------------------------------

  lemma AnnotatedSaysTheSame(m: MarkedMessage)
    ensures Annotated(m).role == m.role && StripContent(Annotated(m).content) == StripContent(m.content)
  {
  }

  // The request says the same with its markers as without them.
  lemma PlacingSaysTheSame(wire: seq<WireMessage>)
    ensures Strip(Placed(Unmarked(wire))) == wire
  {
    hide Annotated;
    var before := Unmarked(wire);
    var after := Placed(before);
    forall i | 0 <= i < |wire|
      ensures Strip(after)[i] == wire[i]
    {
      AnnotatedSaysTheSame(before[i]);
      assert StripContent(before[i].content) == wire[i].content;
    }
  }

  // --- how many markers -------------------------------------------------------------------------

  function Markers(content: seq<Marked>): nat {
    if content == [] then 0 else Markers(content[..|content| - 1]) + if content[|content| - 1].marker then 1 else 0
  }

  function MarkersIn(wire: seq<MarkedMessage>): nat {
    if wire == [] then 0 else MarkersIn(wire[..|wire| - 1]) + Markers(wire[|wire| - 1].content)
  }

  lemma {:induction false} NoMarkers(content: seq<Marked>)
    requires forall i :: 0 <= i < |content| ==> !content[i].marker
    ensures Markers(content) == 0
  {
    if content != [] {
      NoMarkers(content[..|content| - 1]);
    }
  }

  lemma {:induction false} OneMarker(content: seq<Marked>, k: nat)
    requires k < |content| && forall i :: 0 <= i < |content| ==> (content[i].marker <==> i == k)
    ensures Markers(content) == 1
  {
    if k == |content| - 1 {
      NoMarkers(content[..k]);
    } else {
      OneMarker(content[..|content| - 1], k);
    }
  }

  lemma AnnotatedMarkers(content: seq<Block>, role: Role)
    ensures Markers(Bare(content)) == 0
    ensures Markers(Annotated(MarkedMessage(role, Bare(content))).content)
            == if LastCacheable(Bare(content)) >= 0 then 1 else 0
  {
    hide LastCacheable, Markers;
    NoMarkers(Bare(content));
    LastCacheableIsLast(Bare(content));
    if LastCacheable(Bare(content)) >= 0 {
      OneMarker(Annotated(MarkedMessage(role, Bare(content))).content, LastCacheable(Bare(content)));
    }
  }

  lemma {:induction false} UnmarkedHasNone(wire: seq<WireMessage>)
    ensures MarkersIn(Unmarked(wire)) == 0
  {
    if wire != [] {
      hide Markers;
      var n := |wire| - 1;
      assert Unmarked(wire)[..n] == Unmarked(wire[..n]);
      UnmarkedHasNone(wire[..n]);
      AnnotatedMarkers(wire[n].content, wire[n].role);
    }
  }

  lemma MarkersOfLast(wire: seq<MarkedMessage>, m: MarkedMessage)
    ensures MarkersIn(wire + [m]) == MarkersIn(wire) + Markers(m.content)
  {
    assert (wire + [m])[..|wire|] == wire;
  }

  predicate CanEndMarked(m: WireMessage) {
    m.content != [] && IsCacheable(m.content[|m.content| - 1])
  }

  // A request carries at most two markers on its messages, and the one on the last
  // message is there whenever that message can carry one.
  lemma AtMostTwoMarkers(wire: seq<WireMessage>)
    ensures MarkersIn(Placed(Unmarked(wire))) <= 2
    ensures wire != [] && CanEndMarked(wire[|wire| - 1]) ==>
              Placed(Unmarked(wire))[|wire| - 1].content[|wire[|wire| - 1].content| - 1].marker
  {
    hide MarkersIn, Markers, LastCacheable;
    UnmarkedHasNone(wire);
    if wire != [] && CanEndMarked(wire[|wire| - 1]) {
      LastIsCacheable(wire[|wire| - 1].content);
    }
    var n := |wire|;
    if n > 0 {
      var before := Unmarked(wire);
      var last := before[n - 1];
      AnnotatedMarkers(wire[n - 1].content, wire[n - 1].role);
      if NeedsTwo(before) {
        UnmarkedHasNone(wire[..n - 2]);
        assert Unmarked(wire[..n - 2]) == before[..n - 2];
        AnnotatedMarkers(wire[n - 2].content, wire[n - 2].role);
        assert Placed(before) == (before[..n - 2] + [Annotated(before[n - 2])]) + [Annotated(last)];
        MarkersOfLast(before[..n - 2] + [Annotated(before[n - 2])], Annotated(last));
        MarkersOfLast(before[..n - 2], Annotated(before[n - 2]));
      } else {
        UnmarkedHasNone(wire[..n - 1]);
        assert Unmarked(wire[..n - 1]) == before[..n - 1];
        assert Placed(before) == before[..n - 1] + [Annotated(last)];
        MarkersOfLast(before[..n - 1], Annotated(last));
      }
    }
  }

  // --- whether the chain of cache entries stays connected ---------------------------------------

  function FlattenMarked(wire: seq<MarkedMessage>): seq<Marked> {
    if wire == [] then [] else FlattenMarked(wire[..|wire| - 1]) + wire[|wire| - 1].content
  }

  // Looking back from the marker at `to`, over at most 20 blocks at a time, the entry
  // that ends at `from` is found, directly or by way of a marker in between.
  ghost predicate Reaches(flat: seq<Marked>, from: int, to: int) {
    to - from <= CACHE_LOOKBACK_BLOCKS
    || exists mid :: 0 <= mid < |flat| && from < mid < to && flat[mid].marker
         && mid - from <= CACHE_LOOKBACK_BLOCKS && to - mid <= CACHE_LOOKBACK_BLOCKS
  }

  lemma {:induction false} FlattenUnmarked(wire: seq<WireMessage>)
    ensures FlattenMarked(Unmarked(wire)) == Bare(Flatten(wire))
  {
    if wire != [] {
      var n := |wire| - 1;
      FlattenUnmarked(wire[..n]);
      assert Unmarked(wire)[..n] == Unmarked(wire[..n]);
      assert Bare(Flatten(wire[..n]) + wire[n].content) == Bare(Flatten(wire[..n])) + Bare(wire[n].content);
    }
  }

  lemma FlattenOneMore(wire: seq<MarkedMessage>, m: MarkedMessage)
    ensures FlattenMarked(wire + [m]) == FlattenMarked(wire) + m.content
  {
    assert (wire + [m])[..|wire|] == wire;
  }

  // The marked blocks of a request that adds two messages to an earlier one.
  lemma TwoMoreMessages(wire: seq<WireMessage>, a: WireMessage, u: WireMessage)
    ensures var ma := MarkedMessage(a.role, Bare(a.content));
            var mu := MarkedMessage(u.role, Bare(u.content));
            var two := |a.content| + |u.content| > CACHE_LOOKBACK_BLOCKS;
            FlattenMarked(Placed(Unmarked(wire + [a, u])))
            == Bare(Flatten(wire)) + (if two then Annotated(ma) else ma).content + Annotated(mu).content
  {
    hide FlattenMarked, Annotated;
    var all := Unmarked(wire + [a, u]);
    var ma, mu := MarkedMessage(a.role, Bare(a.content)), MarkedMessage(u.role, Bare(u.content));
    var n := |wire|;
    assert all[..n] == Unmarked(wire) && all[n] == ma && all[n + 1] == mu;
    var first := if |a.content| + |u.content| > CACHE_LOOKBACK_BLOCKS then Annotated(ma) else ma;
    assert Placed(all) == (Unmarked(wire) + [first]) + [Annotated(mu)];
    FlattenOneMore(Unmarked(wire) + [first], Annotated(mu));
    FlattenOneMore(Unmarked(wire), first);
    FlattenUnmarked(wire);
  }

  // Where the markers of the added messages are, counted from their first block.
  lemma AnnotatedAt(content: seq<Block>, role: Role, i: nat)
    requires i < |content|
    ensures Annotated(MarkedMessage(role, Bare(content))).content[i].marker <==> i == LastCacheable(Bare(content))
    ensures |Annotated(MarkedMessage(role, Bare(content))).content| == |content|
  {
    hide LastCacheable;
  }

  // Among the blocks added, the last is marked, and the intermediate one if two are.
  lemma MarkersAdded(wire: seq<WireMessage>, a: WireMessage, u: WireMessage, mid: nat)
    requires u.content != [] && IsCacheable(u.content[|u.content| - 1])
    ensures var flat := FlattenMarked(Placed(Unmarked(wire + [a, u])));
            var base, k := |Flatten(wire)|, LastCacheable(Bare(a.content));
            && |flat| == base + |a.content| + |u.content|
            && (base <= mid < |flat| ==>
                  (flat[mid].marker <==>
                     || mid == |flat| - 1
                     || (|a.content| + |u.content| > CACHE_LOOKBACK_BLOCKS && k >= 0 && mid == base + k)))
  {
    hide FlattenMarked, Placed, Annotated, LastCacheable, Flatten;
    TwoMoreMessages(wire, a, u);
    LastCacheableIsLast(Bare(a.content));
    LastIsCacheable(u.content);
    AnnotatedSize(a);
    AnnotatedSize(u);
    var base := |Flatten(wire)|;
    if base <= mid < base + |a.content| {
      AnnotatedAt(a.content, a.role, mid - base);
    } else if base + |a.content| <= mid < base + |a.content| + |u.content| {
      AnnotatedAt(u.content, u.role, mid - base - |a.content|);
    }
  }

  // The next request finds the entry of the one before it exactly when the two messages
  // added since hold at most 20 blocks together, or the marker between them leaves at
  // most 20 on either side: beyond that one intermediate marker is not enough.
  lemma ChainStaysConnectedExactly(wire: seq<WireMessage>, a: WireMessage, u: WireMessage)
    requires u.content != [] && IsCacheable(u.content[|u.content| - 1])
    ensures var flat := FlattenMarked(Placed(Unmarked(wire + [a, u])));
            var k := LastCacheable(Bare(a.content));
            var added := |a.content| + |u.content|;
            Reaches(flat, |Flatten(wire)| - 1, |flat| - 1)
            <==> (added <= CACHE_LOOKBACK_BLOCKS
                  || (k >= 0 && k + 1 <= CACHE_LOOKBACK_BLOCKS && added - (k + 1) <= CACHE_LOOKBACK_BLOCKS))
  {
    hide FlattenMarked, Placed, LastCacheable, Flatten;
    var flat := FlattenMarked(Placed(Unmarked(wire + [a, u])));
    var k := LastCacheable(Bare(a.content));
    var base := |Flatten(wire)|;
    LastCacheableIsLast(Bare(a.content));
    MarkersAdded(wire, a, u, base);
    if k >= 0 {
      MarkersAdded(wire, a, u, base + k);
    }
    forall mid: nat | base <= mid < |flat| - 1 && flat[mid].marker
      ensures |a.content| + |u.content| > CACHE_LOOKBACK_BLOCKS && k >= 0 && mid == base + k
    {
      MarkersAdded(wire, a, u, mid);
    }
  }

  lemma AnnotatedSize(a: WireMessage)
    ensures |Annotated(MarkedMessage(a.role, Bare(a.content))).content| == |a.content|
  {
  }

  lemma LastIsCacheable(content: seq<Block>)
    requires content != [] && IsCacheable(content[|content| - 1])
    ensures LastCacheable(Bare(content)) == |content| - 1
  {
  }

  // --- the messages of one turn -------------------------------------------------------------------

  // A turn with calls, answered, adds two messages to the wire.
  lemma {:induction false} TurnOnTheWire(ms: seq<Message>, turn: Message, results: seq<Message>)
    requires turn.AssistantMessage? && results != [] && forall i :: 0 <= i < |results| ==> results[i].ToolResultMessage?
    ensures Wire(ms + [turn] + results)
            == Wire(ms) + [WireMessage(Assistant, Blocks(turn)), WireMessage(User, FlattenMessages(results))]
    ensures |FlattenMessages(results)| == |results| && FlattenMessages(results)[|results| - 1].ToolResult?
    ensures FlattenMessages(results)[0].ToolResult?
  {
    hide Blocks, Wire, FlattenMessages;
    var n := |results| - 1;
    WireAppend(ms + [turn] + results[..n], results[n]);
    FlattenAppend(results[..n], results[n]);
    ResultBlock(results[n]);
    assert ms + [turn] + results == (ms + [turn] + results[..n]) + [results[n]];
    assert results == results[..n] + [results[n]];
    var a := WireMessage(Assistant, Blocks(turn));
    if n == 0 {
      assert ms + [turn] + results[..n] == ms + [turn];
      WireAppend(ms, turn);
      NothingFlattened();
      assert results[..n] == [] && [] + Blocks(results[n]) == Blocks(results[n]);
      var before := Wire(ms) + [a];
      assert Wire(ms + [turn]) == before && before[|before| - 1] == a;
      assert before + [WireMessage(User, Blocks(results[n]))] == Wire(ms) + [a, WireMessage(User, Blocks(results[n]))];
    } else {
      TurnOnTheWire(ms, turn, results[..n]);
      var u := WireMessage(User, FlattenMessages(results[..n]));
      var before := Wire(ms) + [a, u];
      assert before[|before| - 1] == u && IsToolResultMessage(u);
      assert before[|before| - 1 := WireMessage(User, u.content + Blocks(results[n]))]
          == Wire(ms) + [a, WireMessage(User, u.content + Blocks(results[n]))];
    }
  }

  lemma WireAppend(ms: seq<Message>, m: Message)
    ensures Wire(ms + [m]) == WireStep(Wire(ms), m)
  {
    hide WireStep;
    assert (ms + [m])[..|ms|] == ms;
  }

  lemma FlattenAppend(ms: seq<Message>, m: Message)
    ensures FlattenMessages(ms + [m]) == FlattenMessages(ms) + Blocks(m)
  {
    hide Blocks;
    assert (ms + [m])[..|ms|] == ms;
  }

  lemma NothingFlattened()
    ensures FlattenMessages([]) == []
  {
  }

  lemma ResultBlock(m: Message)
    requires m.ToolResultMessage?
    ensures |Blocks(m)| == 1 && Blocks(m)[0].ToolResult?
  {
  }

  lemma {:induction false} UseBlocksAreUses(calls: seq<ToolCall>)
    ensures |UseBlocks(calls)| == |calls| && forall i :: 0 <= i < |calls| ==> UseBlocks(calls)[i].ToolUse?
  {
    if calls != [] {
      UseBlocksAreUses(calls[..|calls| - 1]);
    }
  }

  // A turn without provider state keeps the chain connected exactly when its text and its
  // calls make at most 20 blocks; 21 parallel calls break it.
  lemma TurnStaysConnectedExactly(ms: seq<Message>, said: Option<string>, calls: seq<ToolCall>, results: seq<Message>)
    requires calls != [] && |results| == |calls| && forall i :: 0 <= i < |results| ==> results[i].ToolResultMessage?
    ensures var turn := AssistantMessage(said, calls, None);
            var flat := FlattenMarked(Placed(Unmarked(Wire(ms + [turn] + results))));
            Reaches(flat, |Flatten(Wire(ms))| - 1, |flat| - 1)
            <==> |calls| + (if said.Some? && said.value != "" then 1 else 0) <= CACHE_LOOKBACK_BLOCKS
  {
    hide FlattenMarked, Placed, Unmarked, Reaches, Flatten, Wire;
    var turn := AssistantMessage(said, calls, None);
    TurnOnTheWire(ms, turn, results);
    UseBlocksAreUses(calls);
    var a, u := WireMessage(Assistant, Blocks(turn)), WireMessage(User, FlattenMessages(results));
    ChainStaysConnectedExactly(Wire(ms), a, u);
    LastIsCacheable(a.content);
  }

  function ManyCalls(n: nat): (calls: seq<ToolCall>)
    ensures |calls| == n
  {
    seq(n, _ => ToolCall("", "", ""))
  }

  function ManyResults(n: nat): (results: seq<Message>)
    ensures |results| == n && forall i :: 0 <= i < n ==> results[i].ToolResultMessage?
  {
    seq(n, _ => ToolResultMessage("", "", false))
  }

  // 21 parallel calls break the chain, after any history.
  lemma TwentyOneCallsBreakTheChain(ms: seq<Message>)
    ensures var turn := AssistantMessage(None, ManyCalls(21), None);
            var flat := FlattenMarked(Placed(Unmarked(Wire(ms + [turn] + ManyResults(21)))));
            !Reaches(flat, |Flatten(Wire(ms))| - 1, |flat| - 1)
  {
    hide FlattenMarked, Placed, Unmarked, Reaches, Flatten, Wire;
    TurnStaysConnectedExactly(ms, None, ManyCalls(21), ManyResults(21));
  }
}
