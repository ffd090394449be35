/**
 The provider-neutral messages of one session (adapters/base.py), and what it means
 for a history to be well paired: the kickoff, then assistant turns, each followed by
 exactly one result per call in order, or by the continuation text when it made none.
 */
module Conversation {
  import opened Options

  datatype ToolCall = ToolCall(id: string, name: string, args: string)

  datatype Block =
    | Text(text: string)
    | Thinking(signature: string)
    | ToolUse(id: string, name: string, args: string)
    | ToolResult(id: string, content: string, isError: bool)

  datatype ProviderState = ProviderState(provider: string, payload: seq<Block>)

  datatype Message =
    | UserMessage(text: string)
    | AssistantMessage(said: Option<string>, calls: seq<ToolCall>, state: Option<ProviderState>)
    | ToolResultMessage(id: string, content: string, isError: bool)

  // Where a history stands: nothing yet, ready to be sent, waiting for the
  // continuation text, owing results to the listed calls, or badly paired.
  datatype Standing = Opening | Ready | NeedsContinuation | Owing(calls: seq<ToolCall>) | Broken

  function After(s: Standing, m: Message): Standing {
    match (s, m)
    case (Opening, UserMessage(_)) => Ready
    case (NeedsContinuation, UserMessage(_)) => Ready
    case (Ready, AssistantMessage(_, calls, _)) => if calls == [] then NeedsContinuation else Owing(calls)
    case (Owing(calls), ToolResultMessage(id, _, _)) =>
      if calls == [] || calls[0].id != id then Broken
      else if |calls| == 1 then Ready else Owing(calls[1..])
    case _ => Broken
  }

  function Stands(ms: seq<Message>): Standing {
    if ms == [] then Opening else After(Stands(ms[..|ms| - 1]), ms[|ms| - 1])
  }

  // The calls that the result messages answer, by position, in order.
  function AnsweredCalls(ms: seq<Message>): seq<ToolCall> {
    if ms == [] then [] else
      var before := Stands(ms[..|ms| - 1]);
      AnsweredCalls(ms[..|ms| - 1])
      + if ms[|ms| - 1].ToolResultMessage? && before.Owing? && before.calls != [] then [before.calls[0]] else []
  }

  lemma StandsAfter(ms: seq<Message>, m: Message)
    ensures Stands(ms + [m]) == After(Stands(ms), m)
  {
    assert (ms + [m])[..|ms|] == ms;
  }

  function CallIds(calls: seq<ToolCall>): (ids: seq<string>)
    ensures |ids| == |calls|
    ensures forall i :: 0 <= i < |ids| ==> ids[i] == calls[i].id
  {
    seq(|calls|, i requires 0 <= i < |calls| => calls[i].id)
  }

  lemma ConcatAssociates<T>(a: seq<T>, b: seq<T>, c: seq<T>)
    ensures a + (b + c) == a + b + c
  {
  }

  // The blocks of one kind's ids, in order.
  function UseIds(blocks: seq<Block>): seq<string> {
    if blocks == [] then [] else
      var last := blocks[|blocks| - 1];
      UseIds(blocks[..|blocks| - 1]) + if last.ToolUse? then [last.id] else []
  }

  function ResultIds(blocks: seq<Block>): seq<string> {
    if blocks == [] then [] else
      var last := blocks[|blocks| - 1];
      ResultIds(blocks[..|blocks| - 1]) + if last.ToolResult? then [last.id] else []
  }

  lemma {:induction false} IdsConcat(a: seq<Block>, b: seq<Block>)
    ensures UseIds(a + b) == UseIds(a) + UseIds(b)
    ensures ResultIds(a + b) == ResultIds(a) + ResultIds(b)
  {
    if b == [] {
      assert a + b == a;
    } else {
      assert (a + b)[..|a + b| - 1] == a + b[..|b| - 1];
      IdsConcat(a, b[..|b| - 1]);
    }
  }
}
