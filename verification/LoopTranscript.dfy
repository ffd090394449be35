/**
 What a session says to the model: every request carries the transcript of the session so
 far, which the answers, the tools and the injections determine message by message.
 */
module LoopTranscript {
  import opened Options
  import opened Conversation
  import opened AgentLoop
  import opened LoopAnswers
  import Telemetry

  // --- the transcript -----------------------------------------------------------------------------

  // The texts of an answer, with an empty line between any two.
  function Paragraphs(texts: seq<string>): string
    requires texts != []
  {
    if |texts| == 1 then texts[0] else texts[0] + "\n\n" + Paragraphs(texts[1..])
  }

  // The assistant message of an answer.
  function Spoken(r: Response): Message {
    AssistantMessage(if r.texts == [] then None else Some(Paragraphs(r.texts)), r.calls, r.state)
  }

  // The results of calls of which the first is the `from`-th that the session executes.
  function Results(env: Env, calls: seq<ToolCall>, from: nat): seq<Message> {
    seq(|calls|, j requires 0 <= j < |calls| =>
      ToolResultMessage(calls[j].id, env.tools(from + j).content, !env.tools(from + j).ok))
  }

  // An answer that was not heard leaves nothing; any other leaves its turn, and the
  // results of its calls or, when it made none, the continuation.
  function Exchange(env: Env, n: nat, from: nat): seq<Message> {
    if !IsHeard(env.adapter(n)) then []
    else
      var r := env.adapter(n).response;
      [Spoken(r)] + if r.calls == [] then [UserMessage(env.continuation)] else Results(env, r.calls, from)
  }

  // The calls that the first `n` answers made.
  function CallsMade(env: Env, n: nat): nat {
    if n == 0 then 0
    else CallsMade(env, n - 1) + if IsHeard(env.adapter(n)) then |env.adapter(n).response.calls| else 0
  }

  function Injected(injections: seq<Injection>): seq<Message> {
    if injections == [] then []
    else
      var i := injections[0];
      [AssistantMessage(None, [i.call], None), ToolResultMessage(i.call.id, i.content, !i.ok)]
      + Injected(injections[1..])
  }

  // The history after the first `n` answers.
  function Transcript(env: Env, n: nat): seq<Message> {
    if n == 0 then [UserMessage(env.kickoff)] + Injected(env.injections)
    else Transcript(env, n - 1) + Exchange(env, n, CallsMade(env, n - 1))
  }

  // --- the loop writes it -------------------------------------------------------------------------

  lemma {:induction false} JoinAppends(texts: seq<string>, last: string)
    requires texts != []
    ensures Paragraphs(texts + [last]) == Paragraphs(texts) + "\n\n" + last
  {
    if |texts| == 1 {
      assert (texts + [last])[1..] == [last];
    } else {
      assert (texts + [last])[1..] == texts[1..] + [last];
      JoinAppends(texts[1..], last);
      assert texts[0] + "\n\n" + (Paragraphs(texts[1..]) + "\n\n" + last)
          == texts[0] + "\n\n" + Paragraphs(texts[1..]) + "\n\n" + last;
    }
  }

  lemma {:induction false} JoinIsParagraphs(texts: seq<string>)
    requires texts != []
    ensures Join(texts) == Paragraphs(texts)
  {
    if |texts| > 1 {
      var n := |texts| - 1;
      JoinIsParagraphs(texts[..n]);
      JoinAppends(texts[..n], texts[n]);
      assert texts == texts[..n] + [texts[n]];
    }
  }

  lemma TurnIsSpoken(r: Response)
    ensures Turn(r) == Spoken(r)
  {
    hide Join, Paragraphs;
    if r.texts != [] {
      JoinIsParagraphs(r.texts);
    }
  }

  // Every request so far carried the transcript up to it.
  ghost predicate SentTranscripts(env: Env, s: Session) {
    && |s.sent| == s.requestSeq
    && forall i :: 0 <= i < |s.sent| ==> s.sent[i] == Transcript(env, i)
  }

  // Between two turns.
  ghost predicate Written(env: Env, s: Session) {
    && SentTranscripts(env, s) && !s.ended
    && s.messages == Transcript(env, s.requestSeq) && s.executed == CallsMade(env, s.requestSeq)
  }

  lemma AttemptWrites(env: Env, s: Session)
    requires SentTranscripts(env, s) && s.messages == Transcript(env, s.requestSeq)
    ensures var t := Attempt(env, s);
            && SentTranscripts(env, t) && t.requestSeq == s.requestSeq + 1
            && t.messages == s.messages && t.executed == s.executed && t.ended == s.ended
  {
    hide Transcript;
  }

  lemma NothingHeard(env: Env, n: nat)
    requires n > 0 && !IsHeard(env.adapter(n))
    ensures Transcript(env, n) == Transcript(env, n - 1) && CallsMade(env, n) == CallsMade(env, n - 1)
  {
  }

  lemma {:induction false} AskModelWrites(env: Env, s: Session, attempt: nat)
    requires Written(env, s)
    ensures var (t, response) := AskModel(env, s, attempt);
            && SentTranscripts(env, t) && !t.ended && t.requestSeq > 0
            && t.messages == Transcript(env, t.requestSeq - 1) && t.executed == CallsMade(env, t.requestSeq - 1)
            && (response.Some? ==> IsHeard(Answered(response.value))
                                   && env.adapter(t.requestSeq) == Answered(response.value))
    decreases env.caps.retries - attempt
  {
    hide SentTranscripts, Transcript, CallsMade, Attempt, IsHeard, IsEmpty;
    AttemptWrites(env, s);
    var answer := env.adapter(s.requestSeq + 1);
    HeardIsUseful(answer);
    if !IsUseful(answer) && !GivesUp(env, answer, attempt) {
      NothingHeard(env, s.requestSeq + 1);
      AskModelWrites(env, Attempt(env, s), attempt + 1);
    }
  }

  lemma ExecuteWrites(env: Env, s: Session, call: ToolCall)
    ensures var t := Execute(env, s, call);
            var o := env.tools(s.executed);
            && t.messages == s.messages + [ToolResultMessage(call.id, o.content, !o.ok)]
            && t.executed == s.executed + 1 && t.sent == s.sent && t.requestSeq == s.requestSeq
  {
    hide HashesOf, Collect;
    SetWakeWritesNothing(env, s, call);
  }

  lemma SetWakeWritesNothing(env: Env, s: Session, call: ToolCall)
    ensures var t := SetWake(env, s, call);
            && t.messages == s.messages && t.executed == s.executed && t.sent == s.sent && t.requestSeq == s.requestSeq
  {
  }

  lemma ResultsFollow(env: Env, s: Session, calls: seq<ToolCall>, s1: Session, t: Session)
    requires calls != [] && s1.executed == s.executed + 1
    requires s1.messages
             == s.messages + [ToolResultMessage(calls[0].id, env.tools(s.executed).content, !env.tools(s.executed).ok)]
    requires AddsResults(env, s1, calls[1..], t) && !t.ended
    ensures AddsResults(env, s, calls, t)
  {
    hide Results;
    var first := ToolResultMessage(calls[0].id, env.tools(s.executed).content, !env.tools(s.executed).ok);
    FirstResult(env, calls, s.executed);
    Associates(s.messages, first, Results(env, calls[1..], s.executed + 1));
  }

  lemma FirstResult(env: Env, calls: seq<ToolCall>, from: nat)
    requires calls != []
    ensures Results(env, calls, from)
            == [ToolResultMessage(calls[0].id, env.tools(from).content, !env.tools(from).ok)]
               + Results(env, calls[1..], from + 1)
  {
    var rest := Results(env, calls[1..], from + 1);
    forall j | 0 <= j < |rest|
      ensures Results(env, calls, from)[j + 1] == rest[j]
    {
      assert from + 1 + j == from + (j + 1);
    }
  }

  lemma Associates(before: seq<Message>, first: Message, rest: seq<Message>)
    ensures before + [first] + rest == before + ([first] + rest)
  {
  }

  // A batch that does not end the session adds the results of all its calls.
  lemma {:induction false} BatchWrites(env: Env, s: Session, calls: seq<ToolCall>)
    ensures Batch(env, s, calls).0.sent == s.sent && Batch(env, s, calls).0.requestSeq == s.requestSeq
    ensures Batch(env, s, calls).1.None? ==> AddsResults(env, s, calls, Batch(env, s, calls).0)
    decreases |calls|
  {
    hide Execute, Judge, Skip, AddsResults;
    if calls == [] {
      NoResults(env, s);
    } else if s.ended {
      SkipAddsARow(env, s, calls[0]);
      BatchWrites(env, Skip(env, s, calls[0]), calls[1..]);
      SkippedBatchEnds(env, s, calls);
    } else {
      ExecuteWrites(env, s, calls[0]);
      var s1 := Execute(env, s, calls[0]);
      JudgeOnlyRecords(env, s1, calls[0], env.tools(s.executed), calls[1..]);
      var (s2, reason) := Judge(env, s1, calls[0], env.tools(s.executed), calls[1..]);
      if reason.None? {
        BatchWrites(env, s2, calls[1..]);
        if Batch(env, s2, calls[1..]).1.None? {
          BatchProgress(env, s2, calls[1..]);
          ResultsFollow(env, s, calls, s2, Batch(env, s2, calls[1..]).0);
        }
      }
    }
  }

  ghost predicate AddsResults(env: Env, s: Session, calls: seq<ToolCall>, t: Session) {
    && t.messages == s.messages + Results(env, calls, s.executed)
    && t.executed == s.executed + |calls| && (calls == [] ==> t.ended == s.ended) && (calls != [] ==> !t.ended)
  }

  lemma NoResults(env: Env, s: Session)
    ensures AddsResults(env, s, [], s)
  {
    assert s.messages + Results(env, [], s.executed) == s.messages;
  }

  lemma ExchangeIs(env: Env, n: nat, r: Response)
    requires n > 0 && env.adapter(n) == Answered(r) && IsHeard(env.adapter(n))
    ensures CallsMade(env, n) == CallsMade(env, n - 1) + |r.calls|
    ensures Transcript(env, n)
            == Transcript(env, n - 1) + [Spoken(r)]
               + if r.calls == [] then [UserMessage(env.continuation)]
                 else Results(env, r.calls, CallsMade(env, n - 1))
  {
    hide Spoken, Results;
  }

  lemma SameSent(env: Env, s: Session, t: Session)
    requires SentTranscripts(env, s) && t.sent == s.sent && t.requestSeq == s.requestSeq
    ensures SentTranscripts(env, t)
  {
  }

  lemma TurnWrites(env: Env, s: Session)
    requires Written(env, s)
    ensures var (t, reason) := TakeTurn(env, s);
            SentTranscripts(env, t) && (reason.None? ==> Written(env, t))
  {
    hide SentTranscripts, Transcript, CallsMade, AskModel, Batch, Carry, IsHeard, Spoken, Turn, Results;
    AskModelWrites(env, s, 0);
    var (s1, response) := AskModel(env, s, 0);
    if response.Some? {
      var r := response.value;
      var s2 := Listen(s1, r);
      TurnIsSpoken(r);
      ExchangeIs(env, s1.requestSeq, r);
      SameSent(env, s1, s2);
      CarrySetsTheWake(env, s2, r.calls);
      SameSent(env, s1, Carry(env, s2, r.calls));
      SameSent(env, s1, s2.(errors := s2.errors + 1));
      SameSent(env, s1, s2.(errors := s2.errors + 1, messages := s2.messages + [UserMessage(env.continuation)]));
      BatchWrites(env, s2, r.calls);
      SameSent(env, s1, Batch(env, s2, r.calls).0);
    }
  }

  lemma {:induction false} TurnsWrite(env: Env, s: Session)
    requires Written(env, s)
    ensures SentTranscripts(env, Turns(env, s).0)
    decreases AtLeastZero(env.caps.sessionTools - s.executed), AtLeastZero(env.caps.consecutiveErrors - s.errors)
  {
    hide SentTranscripts, Written, TakeTurn;
    TurnProgress(env, s);
    TurnWrites(env, s);
    if TakeTurn(env, s).1.None? {
      TurnsWrite(env, TakeTurn(env, s).0);
    }
  }

  lemma {:induction false} InjectedAppends(injections: seq<Injection>, i: Injection)
    ensures Injected(injections + [i])
            == Injected(injections)
               + [AssistantMessage(None, [i.call], None), ToolResultMessage(i.call.id, i.content, !i.ok)]
  {
    if injections == [] {
      assert ([] + [i])[1..] == [];
    } else {
      assert (injections + [i])[1..] == injections[1..] + [i];
      InjectedAppends(injections[1..], i);
    }
  }

  lemma {:induction false} InjectionsWrite(env: Env, s: Session, injections: seq<Injection>)
    ensures var t := InjectAll(env, s, injections);
            && t.messages == s.messages + Injected(injections)
            && t.sent == s.sent && t.requestSeq == s.requestSeq && t.executed == s.executed && t.ended == s.ended
  {
    if injections == [] {
      assert s.messages + [] == s.messages;
    } else {
      hide Injected;
      var n := |injections| - 1;
      InjectionsWrite(env, s, injections[..n]);
      InjectedAppends(injections[..n], injections[n]);
      assert injections == injections[..n] + [injections[n]];
    }
  }

  // One history is sent per request, and the one of request i + 1 is the transcript of the
  // first i answers: the kickoff, the injected pairs, and for each answer that was heard its
  // turn, with its texts, calls and state, and the results of its calls in order, with the
  // content and the error flag of each, or the continuation.
  lemma SentIsTheTranscript(env: Env, log: Telemetry.Log, usd: real, tokens: int)
    ensures var s := WholeSession(env, log, usd, tokens).0;
            && |s.sent| == s.requestSeq
            && forall i :: 0 <= i < |s.sent| ==> s.sent[i] == Transcript(env, i)
  {
    hide Turns, InjectAll, Injected;
    var s := Begin(env, log, usd, tokens);
    InjectionsWrite(env, s, env.injections);
    TurnsWrite(env, InjectAll(env, s, env.injections));
  }
}
