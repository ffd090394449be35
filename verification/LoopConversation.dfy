/**
 Every history the loop sends to the adapter is well paired, whatever the adapter and
 the tools answer, and so maps to a valid conversation with each provider.
 */
module LoopConversation {
  import opened Options
  import opened Conversation
  import opened AgentLoop
  import Anthropic
  import Google
  import Governor
  import LoopBounds
  import Repetition
  import Telemetry

  // An assistant message of the session is an injected call or one of the adapter's turns.
  ghost predicate Sourced(env: Env, m: Message) {
    m.AssistantMessage? ==>
      || (m.state.None? && |m.calls| == 1)
      || exists n :: env.adapter(n).Answered? && m == Turn(env.adapter(n).response)
  }

  ghost predicate AllSourced(env: Env, ms: seq<Message>) {
    forall i :: 0 <= i < |ms| ==> Sourced(env, ms[i])
  }

  // Every request so far carried a well-paired history.
  ghost predicate SentWell(env: Env, s: Session) {
    && |s.sent| == s.requestSeq
    && AllSourced(env, s.messages)
    && forall i :: 0 <= i < |s.sent| ==> Stands(s.sent[i]) == Ready && AllSourced(env, s.sent[i])
  }

  lemma AttemptSendsWell(env: Env, s: Session)
    requires SentWell(env, s) && Stands(s.messages) == Ready
    ensures SentWell(env, Attempt(env, s)) && Attempt(env, s).messages == s.messages
    ensures Attempt(env, s).requestSeq == s.requestSeq + 1
  {
  }

  lemma {:induction false} AskModelSendsWell(env: Env, s: Session, attempt: nat)
    requires SentWell(env, s) && Stands(s.messages) == Ready
    ensures var (s', response) := AskModel(env, s, attempt);
            && SentWell(env, s') && s'.messages == s.messages
            && (response.Some? ==> exists n :: env.adapter(n) == Answered(response.value))
    decreases env.caps.retries - attempt
  {
    hide SentWell, Attempt, Stands;
    AttemptSendsWell(env, s);
    var answer := env.adapter(s.requestSeq + 1);
    if !IsUseful(answer) && !GivesUp(env, answer, attempt) {
      AskModelSendsWell(env, Attempt(env, s), attempt + 1);
    }
  }

  lemma MessageAdded(env: Env, s: Session, t: Session, m: Message)
    requires SentWell(env, s) && Sourced(env, m)
    requires t.sent == s.sent && t.requestSeq == s.requestSeq && t.messages == s.messages + [m]
    ensures SentWell(env, t) && Stands(t.messages) == After(Stands(s.messages), m)
  {
    StandsAfter(s.messages, m);
  }

  lemma InjectSendsWell(env: Env, s: Session, i: Injection)
    requires SentWell(env, s) && Stands(s.messages) == Ready
    ensures SentWell(env, Inject(env, s, i)) && Stands(Inject(env, s, i).messages) == Ready
  {
    var call, result := AssistantMessage(None, [i.call], None), ToolResultMessage(i.call.id, i.content, !i.ok);
    var s1 := s.(messages := s.messages + [call]);
    MessageAdded(env, s, s1, call);
    assert s.messages + [call, result] == s.messages + [call] + [result];
    MessageAdded(env, s1, Inject(env, s, i), result);
  }

  lemma {:induction false} InjectionsSendWell(env: Env, s: Session, injections: seq<Injection>)
    requires SentWell(env, s) && Stands(s.messages) == Ready
    ensures SentWell(env, InjectAll(env, s, injections)) && Stands(InjectAll(env, s, injections).messages) == Ready
  {
    hide SentWell, Inject, Stands;
    if injections != [] {
      var n := |injections| - 1;
      InjectionsSendWell(env, s, injections[..n]);
      InjectSendsWell(env, InjectAll(env, s, injections[..n]), injections[n]);
    }
  }

  lemma SameTalk(env: Env, s: Session, t: Session)
    requires SentWell(env, s) && t.messages == s.messages && t.sent == s.sent && t.requestSeq == s.requestSeq
    ensures SentWell(env, t)
  {
  }

  lemma ExecuteAnswers(env: Env, s: Session, call: ToolCall)
    requires SentWell(env, s)
    ensures var t := Execute(env, s, call);
            && SentWell(env, t)
            && exists content, isError ::
                 Stands(t.messages) == After(Stands(s.messages), ToolResultMessage(call.id, content, isError))
  {
    var o := env.tools(s.executed);
    MessageAdded(env, s, Execute(env, s, call), ToolResultMessage(call.id, o.content, !o.ok));
  }

  // A batch that ends without ending the session has answered every call of the turn.
  lemma {:induction false} BatchSendsWell(env: Env, s: Session, calls: seq<ToolCall>)
    requires SentWell(env, s)
    requires s.ended || Stands(s.messages) == if calls == [] then Ready else Owing(calls)
    ensures var (t, reason) := Batch(env, s, calls);
            SentWell(env, t) && (reason.None? ==> Stands(t.messages) == Ready)
    decreases |calls|
  {
    hide SentWell, Stands, Execute, Judge, Skip;
    if calls != [] {
      if s.ended {
        SkipAddsARow(env, s, calls[0]);
        SameTalk(env, s, Skip(env, s, calls[0]));
        BatchSendsWell(env, Skip(env, s, calls[0]), calls[1..]);
      } else {
        ExecuteAnswers(env, s, calls[0]);
        var s1 := Execute(env, s, calls[0]);
        var (s2, reason) := Judge(env, s1, calls[0], env.tools(s.executed), calls[1..]);
        JudgeOnlyRecords(env, s1, calls[0], env.tools(s.executed), calls[1..]);
        SameTalk(env, s1, s2);
        if reason.None? {
          BatchSendsWell(env, s2, calls[1..]);
        }
      }
    }
  }

  lemma {:induction false} TurnSendsWell(env: Env, s: Session)
    requires SentWell(env, s) && Stands(s.messages) == Ready && !s.ended
    ensures var (t, reason) := TakeTurn(env, s);
            SentWell(env, t) && (reason.None? ==> Stands(t.messages) == Ready)
  {
    hide SentWell, Stands, AskModel, Batch, Carry, Sourced;
    AskModelSendsWell(env, s, 0);
    AskModelKeeps(env, s, 0);
    var (s1, response) := AskModel(env, s, 0);
    if response.Some? {
      var r := response.value;
      var s2 := Listen(s1, r);
      TurnIsSourced(env, r);
      MessageAdded(env, s1, s2, Turn(r));
      CarrySetsTheWake(env, s2, r.calls);
      SameTalk(env, s2, Carry(env, s2, r.calls));
      if r.calls == [] {
        SameTalk(env, s2, s2.(errors := s2.errors + 1));
        var continued := UserMessage(env.continuation);
        UserIsSourced(env, continued);
        MessageAdded(env, s2, s2.(errors := s2.errors + 1, messages := s2.messages + [continued]), continued);
      } else {
        BatchSendsWell(env, s2, r.calls);
      }
    }
  }

  lemma TurnIsSourced(env: Env, r: Response)
    requires exists n :: env.adapter(n) == Answered(r)
    ensures Sourced(env, Turn(r))
  {
    var n :| env.adapter(n) == Answered(r);
    assert env.adapter(n).Answered? && Turn(r) == Turn(env.adapter(n).response);
  }

  lemma UserIsSourced(env: Env, m: Message)
    requires !m.AssistantMessage?
    ensures Sourced(env, m)
  {
  }

  lemma {:induction false} TurnsSendWell(env: Env, s: Session)
    requires SentWell(env, s) && Stands(s.messages) == Ready && !s.ended
    ensures SentWell(env, Turns(env, s).0)
    decreases AtLeastZero(env.caps.sessionTools - s.executed), AtLeastZero(env.caps.consecutiveErrors - s.errors)
  {
    hide SentWell, Stands, TakeTurn;
    TurnProgress(env, s);
    TurnSendsWell(env, s);
    var (t, reason) := TakeTurn(env, s);
    if reason.None? {
      TurnsSendWell(env, t);
    }
  }

  // --- the main results ---------------------------------------------------------------------

  // One history is recorded per request, and every one of them is well paired.
  lemma EveryRequestIsWellPaired(env: Env, log: Telemetry.Log, usd: real, tokens: int)
    ensures var s := WholeSession(env, log, usd, tokens).0;
            && |s.sent| == s.requestSeq
            && forall i :: 0 <= i < |s.sent| ==> Stands(s.sent[i]) == Ready && AllSourced(env, s.sent[i])
  {
    var s := Begin(env, log, usd, tokens);
    assert s.messages[..0] == [];
    InjectionsSendWell(env, s, env.injections);
    InjectionsKeepOpen(env, s, env.injections);
    TurnsSendWell(env, InjectAll(env, s, env.injections));
  }

  lemma {:induction false} InjectionsKeepOpen(env: Env, s: Session, injections: seq<Injection>)
    ensures InjectAll(env, s, injections).ended == s.ended
  {
    if injections != [] {
      InjectionsKeepOpen(env, s, injections[..|injections| - 1]);
    }
  }

  // With an adapter whose replayed payloads hold their turns' tool uses, every request
  // reaches Anthropic as a strictly alternating conversation in which every tool use is
  // answered in order by the very next message, with no block lost or moved.
  lemma AnthropicRequestsAreValid(env: Env, log: Telemetry.Log, usd: real, tokens: int, i: nat)
    requires forall n :: env.adapter(n).Answered? ==> Anthropic.Replayable(Turn(env.adapter(n).response))
    requires i < |WholeSession(env, log, usd, tokens).0.sent|
    ensures var h := WholeSession(env, log, usd, tokens).0.sent[i];
            var wire := Anthropic.Wire(h);
            && Anthropic.Alternates(wire) && |wire| % 2 == 1
            && Anthropic.AnsweredBefore(wire, |wire|)
            && Anthropic.Flatten(wire) == Anthropic.FlattenMessages(h)
  {
    EveryRequestIsWellPaired(env, log, usd, tokens);
    var h := WholeSession(env, log, usd, tokens).0.sent[i];
    forall k | 0 <= k < |h|
      ensures Anthropic.Replayable(h[k])
    {
      assert Sourced(env, h[k]);
    }
    Anthropic.MapsToAConversation(h);
  }

  // With call ids that are unambiguous inside each turn (and free to recur across
  // turns), every response that reaches Gemini names the call it answers.
  lemma GeminiRequestsNameTheirCalls(env: Env, log: Telemetry.Log, usd: real, tokens: int, i: nat)
    requires forall n :: env.adapter(n).Answered? ==> Google.Unambiguous(env.adapter(n).response.calls)
    requires i < |WholeSession(env, log, usd, tokens).0.sent|
    ensures var h := WholeSession(env, log, usd, tokens).0.sent[i];
            Google.WireNames(Google.Map(h).contents) == Google.OwnNames(AnsweredCalls(h))
  {
    EveryRequestIsWellPaired(env, log, usd, tokens);
    var h := WholeSession(env, log, usd, tokens).0.sent[i];
    forall k | 0 <= k < |h| && h[k].AssistantMessage?
      ensures Google.Unambiguous(h[k].calls)
    {
      assert Sourced(env, h[k]);
    }
    Google.ResponsesNameTheirCalls(h);
    Google.WireCarriesTheNames(h);
  }

  // --- silent turns ---------------------------------------------------------------------------

  // The answer to request `j` is one the loop listens to, and its turn is silent.
  predicate IsSilentAnswer(env: Env, j: int) {
    j >= 1 && IsUseful(env.adapter(j)) && Anthropic.Silent(Turn(env.adapter(j).response))
  }

  ghost predicate SilentUpTo(env: Env, n: int) {
    exists j :: 1 <= j <= n && IsSilentAnswer(env, j)
  }

  ghost predicate HasSilent(ms: seq<Message>) {
    exists i :: 0 <= i < |ms| && Anthropic.Silent(ms[i])
  }

  ghost predicate SentSilence(env: Env, s: Session) {
    |s.sent| == s.requestSeq && forall i :: 0 <= i < |s.sent| ==> (HasSilent(s.sent[i]) <==> SilentUpTo(env, i))
  }

  // The history, and that of every request, holds a silent turn exactly when an earlier
  // answer was silent; `heard` of the answers have entered the history.
  ghost predicate Echoes(env: Env, s: Session, heard: int) {
    SentSilence(env, s) && (HasSilent(s.messages) <==> SilentUpTo(env, heard))
  }

  lemma OneMoreAnswer(env: Env, n: nat)
    ensures SilentUpTo(env, n + 1) <==> SilentUpTo(env, n) || IsSilentAnswer(env, n + 1)
  {
    hide IsSilentAnswer;
  }

  lemma OneMoreMessage(ms: seq<Message>, m: Message)
    ensures HasSilent(ms + [m]) <==> HasSilent(ms) || Anthropic.Silent(m)
  {
    hide Anthropic.Silent;
    assert (ms + [m])[|ms|] == m;
    assert forall i :: 0 <= i < |ms| ==> (ms + [m])[i] == ms[i];
  }

  lemma AttemptEchoes(env: Env, s: Session)
    requires Echoes(env, s, s.requestSeq)
    ensures Echoes(env, Attempt(env, s), s.requestSeq)
  {
    hide SilentUpTo, HasSilent;
  }

  lemma {:induction false} AskModelEchoes(env: Env, s: Session, attempt: nat)
    requires Echoes(env, s, s.requestSeq)
    ensures var (t, response) := AskModel(env, s, attempt);
            && t.requestSeq >= 1 && t.messages == s.messages
            && Echoes(env, t, t.requestSeq - 1)
            && (response.Some? ==> env.adapter(t.requestSeq) == Answered(response.value) && !IsEmpty(response.value))
    decreases env.caps.retries - attempt
  {
    hide Echoes;
    AttemptEchoes(env, s);
    var answer := env.adapter(s.requestSeq + 1);
    if !IsUseful(answer) && !GivesUp(env, answer, attempt) {
      UselessEchoes(env, Attempt(env, s));
      AskModelEchoes(env, Attempt(env, s), attempt + 1);
    }
  }

  lemma UselessEchoes(env: Env, s: Session)
    requires s.requestSeq >= 1 && !IsUseful(env.adapter(s.requestSeq)) && Echoes(env, s, s.requestSeq - 1)
    ensures Echoes(env, s, s.requestSeq)
  {
    hide HasSilent, SilentUpTo, SentSilence;
    OneMoreAnswer(env, s.requestSeq - 1);
  }

  lemma ListenEchoes(env: Env, s: Session, r: Response)
    requires s.requestSeq >= 1 && Echoes(env, s, s.requestSeq - 1)
    requires env.adapter(s.requestSeq) == Answered(r) && !IsEmpty(r)
    ensures Echoes(env, Listen(s, r), s.requestSeq)
  {
    hide HasSilent, SilentUpTo, Anthropic.Silent;
    OneMoreAnswer(env, s.requestSeq - 1);
    OneMoreMessage(s.messages, Turn(r));
  }

  lemma QuietEchoes(env: Env, s: Session, t: Session, m: Message)
    requires Echoes(env, s, s.requestSeq) && !Anthropic.Silent(m)
    requires t.sent == s.sent && t.requestSeq == s.requestSeq && t.messages == s.messages + [m]
    ensures Echoes(env, t, t.requestSeq)
  {
    hide HasSilent, SilentUpTo, Anthropic.Silent;
    OneMoreMessage(s.messages, m);
  }

  lemma SameEchoes(env: Env, s: Session, t: Session)
    requires Echoes(env, s, s.requestSeq)
    requires t.messages == s.messages && t.sent == s.sent && t.requestSeq == s.requestSeq
    ensures Echoes(env, t, t.requestSeq)
  {
    hide HasSilent, SilentUpTo;
  }

  lemma {:induction false} BatchEchoes(env: Env, s: Session, calls: seq<ToolCall>)
    requires Echoes(env, s, s.requestSeq)
    ensures var t := Batch(env, s, calls).0; Echoes(env, t, t.requestSeq)
    decreases |calls|
  {
    hide Echoes, Judge, Skip;
    if calls != [] {
      if s.ended {
        SkipAddsARow(env, s, calls[0]);
        SameEchoes(env, s, Skip(env, s, calls[0]));
        BatchEchoes(env, Skip(env, s, calls[0]), calls[1..]);
      } else {
        var o := env.tools(s.executed);
        var s1 := Execute(env, s, calls[0]);
        QuietEchoes(env, s, s1, ToolResultMessage(calls[0].id, o.content, !o.ok));
        var (s2, reason) := Judge(env, s1, calls[0], o, calls[1..]);
        JudgeOnlyRecords(env, s1, calls[0], o, calls[1..]);
        SameEchoes(env, s1, s2);
        if reason.None? {
          BatchEchoes(env, s2, calls[1..]);
        }
      }
    }
  }

  lemma {:induction false} TurnEchoes(env: Env, s: Session)
    requires Echoes(env, s, s.requestSeq)
    ensures var (t, reason) := TakeTurn(env, s);
            SentSilence(env, t) && (reason.None? ==> Echoes(env, t, t.requestSeq))
  {
    hide Echoes, AskModel, Batch, Carry, SentSilence;
    AskModelEchoes(env, s, 0);
    var (s1, response) := AskModel(env, s, 0);
    EchoesSent(env, s1, s1.requestSeq - 1);
    if response.Some? {
      var r := response.value;
      var s2 := Listen(s1, r);
      ListenEchoes(env, s1, r);
      EchoesSent(env, s2, s2.requestSeq);
      CarrySetsTheWake(env, s2, r.calls);
      SameSent(env, s2, Carry(env, s2, r.calls));
      if r.calls == [] {
        var s3 := s2.(errors := s2.errors + 1);
        SameEchoes(env, s2, s3);
        EchoesSent(env, s3, s3.requestSeq);
        var continued := UserMessage(env.continuation);
        QuietEchoes(env, s3, s3.(messages := s3.messages + [continued]), continued);
        EchoesSent(env, s3.(messages := s3.messages + [continued]), s3.requestSeq);
      } else {
        BatchEchoes(env, s2, r.calls);
        EchoesSent(env, Batch(env, s2, r.calls).0, Batch(env, s2, r.calls).0.requestSeq);
      }
    }
  }

  lemma EchoesSent(env: Env, s: Session, heard: int)
    requires Echoes(env, s, heard)
    ensures SentSilence(env, s)
  {
  }

  lemma SameSent(env: Env, s: Session, t: Session)
    requires SentSilence(env, s) && t.sent == s.sent && t.requestSeq == s.requestSeq
    ensures SentSilence(env, t)
  {
  }

  lemma {:induction false} TurnsEcho(env: Env, s: Session)
    requires Echoes(env, s, s.requestSeq)
    ensures SentSilence(env, Turns(env, s).0)
    decreases AtLeastZero(env.caps.sessionTools - s.executed), AtLeastZero(env.caps.consecutiveErrors - s.errors)
  {
    hide Echoes, SentSilence, TakeTurn;
    TurnProgress(env, s);
    TurnEchoes(env, s);
    if TakeTurn(env, s).1.None? {
      TurnsEcho(env, TakeTurn(env, s).0);
    }
  }

  lemma {:induction false} InjectionsEcho(env: Env, s: Session, injections: seq<Injection>)
    requires Echoes(env, s, s.requestSeq)
    ensures var t := InjectAll(env, s, injections); Echoes(env, t, t.requestSeq)
  {
    hide Echoes;
    if injections != [] {
      var n := |injections| - 1;
      var i := injections[n];
      InjectionsEcho(env, s, injections[..n]);
      var s1 := InjectAll(env, s, injections[..n]);
      var call, result := AssistantMessage(None, [i.call], None), ToolResultMessage(i.call.id, i.content, !i.ok);
      var s2 := s1.(messages := s1.messages + [call]);
      Anthropic.SilentTurn(None, [i.call]);
      QuietEchoes(env, s1, s2, call);
      assert s1.messages + [call, result] == s1.messages + [call] + [result];
      QuietEchoes(env, s2, Inject(env, s1, i), result);
    }
  }

  // A request of a session carries a message with no content to Anthropic exactly when
  // one of the answers before it, useful enough to be billed, made a silent turn: what
  // makes a conversation valid does not include non-empty content.
  lemma SilentTurnReachesTheWire(env: Env, log: Telemetry.Log, usd: real, tokens: int, i: nat)
    requires i < |WholeSession(env, log, usd, tokens).0.sent|
    ensures var wire := Anthropic.Wire(WholeSession(env, log, usd, tokens).0.sent[i]);
            (exists k :: 0 <= k < |wire| && wire[k].content == [])
            <==> (exists j :: 1 <= j <= i && IsSilentAnswer(env, j))
  {
    hide Turns, InjectAll, Anthropic.Wire;
    var s := Begin(env, log, usd, tokens);
    assert !Anthropic.Silent(s.messages[0]);
    assert Echoes(env, s, 0);
    InjectionsEcho(env, s, env.injections);
    TurnsEcho(env, InjectAll(env, s, env.injections));
    Anthropic.EmptyContentExactly(WholeSession(env, log, usd, tokens).0.sent[i]);
  }

  // A response that is billed but says nothing and calls nothing keeps the session
  // going, with an empty message in the history of the next request.
  lemma SilentTurnKeepsGoing(env: Env, s: Session, r: Response)
    requires env.adapter(s.requestSeq + 1) == Answered(r)
    requires r.texts == [] && r.calls == [] && r.state.None?
    requires 0 < r.usage.input + r.usage.output < env.caps.sessionTokens
    requires s.errors + 1 < env.caps.consecutiveErrors
    ensures var (t, reason) := TakeTurn(env, s);
            && reason.None?
            && exists i :: 0 <= i < |Anthropic.Wire(t.messages)| && Anthropic.Wire(t.messages)[i].content == []
  {
    hide Anthropic.Wire, Anthropic.UseBlocks;
    AskModelKeeps(env, s, 0);
    var t := TakeTurn(env, s).0;
    var k := |s.messages|;
    assert t.messages[k] == AssistantMessage(None, [], None);
    Anthropic.SilentTurn(None, []);
    Anthropic.EmptyContentExactly(t.messages);
  }

  // --- a session that sends one -----------------------------------------------------------------

  lemma {:induction false} AskModelAsks(env: Env, s: Session, attempt: nat)
    ensures AskModel(env, s, attempt).0.requestSeq > s.requestSeq
    decreases env.caps.retries - attempt
  {
    var answer := env.adapter(s.requestSeq + 1);
    if !IsUseful(answer) && !GivesUp(env, answer, attempt) {
      AskModelAsks(env, Attempt(env, s), attempt + 1);
    }
  }

  lemma {:induction false} TurnsAsk(env: Env, s: Session)
    ensures Turns(env, s).0.requestSeq > s.requestSeq
    decreases AtLeastZero(env.caps.sessionTools - s.executed), AtLeastZero(env.caps.consecutiveErrors - s.errors)
  {
    hide TakeTurn;
    TurnProgress(env, s);
    TurnAsks(env, s);
    if TakeTurn(env, s).1.None? {
      TurnsAsk(env, TakeTurn(env, s).0);
    }
  }

  lemma TurnAsks(env: Env, s: Session)
    ensures TakeTurn(env, s).0.requestSeq > s.requestSeq
  {
    hide AskModel, Batch, Carry;
    AskModelAsks(env, s, 0);
    var (s1, response) := AskModel(env, s, 0);
    if response.Some? {
      CarrySetsTheWake(env, Listen(s1, response.value), response.value.calls);
      LoopBounds.BatchSendsNothing(env, Listen(s1, response.value), response.value.calls);
    }
  }

  // The first answer is billed, says nothing and calls nothing, and the caps allow for it.
  predicate StartsSilent(env: Env, r: Response) {
    && env.adapter(1) == Answered(r) && r.texts == [] && r.calls == [] && r.state.None?
    && 0 < r.usage.input + r.usage.output < env.caps.sessionTokens && env.caps.consecutiveErrors > 1
  }

  // The whole session sends a second request, and it carries a message with no content.
  lemma SilentAnswerIsSentBack(env: Env, log: Telemetry.Log, usd: real, tokens: int, r: Response)
    requires StartsSilent(env, r)
    ensures var sent := WholeSession(env, log, usd, tokens).0.sent;
            |sent| >= 2 && exists k :: 0 <= k < |Anthropic.Wire(sent[1])| && Anthropic.Wire(sent[1])[k].content == []
  {
    hide TakeTurn, Turns, InjectAll, Anthropic.Wire, Anthropic.Silent;
    var s := InjectAll(env, Begin(env, log, usd, tokens), env.injections);
    LoopBounds.InjectionsLeave(env, Begin(env, log, usd, tokens), env.injections);
    SilentTurnKeepsGoing(env, s, r);
    TurnAsks(env, s);
    TurnProgress(env, s);
    TurnsGoOn(env, s);
    TurnsAsk(env, TakeTurn(env, s).0);
    EveryRequestIsWellPaired(env, log, usd, tokens);
    Anthropic.SilentTurn(None, []);
    assert IsSilentAnswer(env, 1);
    SilentTurnReachesTheWire(env, log, usd, tokens, 1);
  }

  lemma TurnsGoOn(env: Env, s: Session)
    requires TakeTurn(env, s).1.None?
    ensures Turns(env, s) == Turns(env, TakeTurn(env, s).0)
  {
    hide TakeTurn;
  }

  // There are such sessions.
  lemma SomeSessionIsSilent() returns (env: Env, r: Response)
    ensures StartsSilent(env, r)
    ensures var sent := WholeSession(env, [Telemetry.SessionStart(1, 0)], 0.0, 0).0.sent;
            |sent| >= 2 && exists k :: 0 <= k < |Anthropic.Wire(sent[1])| && Anthropic.Wire(sent[1])[k].content == []
  {
    r := Response([], [], Governor.Usage(1, 1, 0, 0), None);
    var answer, outcome := Answered(r), Outcome("", true, None, [], false, false);
    env := Env(1, Caps(10, 1, 2, 0, Repetition.Limits(1, 1, 1, 1), 0, 0), Governor.Prices(0.0, 0.0, None, None), "", "",
               [], _ => answer, _ => outcome, _ => None, _ => "");
    SilentAnswerIsSentBack(env, [Telemetry.SessionStart(1, 0)], 0.0, 0, r);
  }
}
