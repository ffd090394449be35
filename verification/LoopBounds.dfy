/**
 What the caps of a session guarantee, against every adapter and every tool oracle.
 */
module LoopBounds {
  import opened Conversation
  import opened Telemetry
  import opened AgentLoop
  import Repetition

  // --- a bound on the model requests ------------------------------------------------------

  // What is left: it falls with every turn that does not end the session.
  function Measure(env: Env, s: Session): int {
    (env.caps.sessionTools - s.executed) * env.caps.consecutiveErrors - s.errors
  }

  predicate Within(env: Env, s: Session) {
    s.executed < env.caps.sessionTools && s.errors < env.caps.consecutiveErrors
  }

  lemma MeasureFalls(tools: int, cap: int, executed: nat, errors: nat, executed': nat, errors': nat)
    requires executed < tools && errors < cap
    requires || (executed < executed' < tools && errors' < cap)
             || (executed' == executed && errors' == errors + 1 < cap)
    ensures (tools - executed') * cap - errors' < (tools - executed) * cap - errors
    ensures (tools - executed') * cap - errors' >= 1
  {
    if executed < executed' {
      Monotone(tools - executed', tools - executed - 1, cap);
      assert (tools - executed - 1) * cap == (tools - executed) * cap - cap;
    }
    Monotone(1, tools - executed', cap);
  }

  lemma Monotone(a: int, b: int, c: int)
    requires a <= b && c >= 0
    ensures a * c <= b * c
  {
  }

  lemma {:induction false} AttemptsAreBounded(env: Env, s: Session, attempt: nat)
    requires attempt <= env.caps.retries
    ensures AskModel(env, s, attempt).0.requestSeq <= s.requestSeq + (env.caps.retries - attempt + 1)
    decreases env.caps.retries - attempt
  {
    var answer := env.adapter(s.requestSeq + 1);
    if !IsUseful(answer) && !GivesUp(env, answer, attempt) {
      AttemptsAreBounded(env, Attempt(env, s), attempt + 1);
    }
  }

  lemma {:induction false} BatchSendsNothing(env: Env, s: Session, calls: seq<ToolCall>)
    ensures Batch(env, s, calls).0.requestSeq == s.requestSeq
    decreases |calls|
  {
    hide Execute, Judge;
    if calls != [] {
      if s.ended {
        BatchSendsNothing(env, Skip(env, s, calls[0]), calls[1..]);
      } else {
        var (s1, reason) := Judge(env, Execute(env, s, calls[0]), calls[0], env.tools(s.executed), calls[1..]);
        ExecuteSendsNothing(env, s, calls[0]);
        JudgeOnlyRecords(env, Execute(env, s, calls[0]), calls[0], env.tools(s.executed), calls[1..]);
        if reason.None? {
          BatchSendsNothing(env, s1, calls[1..]);
        }
      }
    }
  }

  lemma ExecuteSendsNothing(env: Env, s: Session, call: ToolCall)
    ensures Execute(env, s, call).requestSeq == s.requestSeq
  {
  }

  lemma TurnSendsAtMost(env: Env, s: Session)
    requires env.caps.retries >= 0
    ensures TakeTurn(env, s).0.requestSeq <= s.requestSeq + env.caps.retries + 1
  {
    hide AskModel, Batch, Carry;
    AttemptsAreBounded(env, s, 0);
    var (s1, response) := AskModel(env, s, 0);
    if response.Some? {
      var r := response.value;
      CarrySetsTheWake(env, Listen(s1, r), r.calls);
      BatchSendsNothing(env, Listen(s1, r), r.calls);
    }
  }

  lemma {:induction false} TurnsSendAtMost(env: Env, s: Session)
    requires env.caps.retries >= 0 && Within(env, s)
    ensures Turns(env, s).0.requestSeq <= s.requestSeq + Measure(env, s) * (env.caps.retries + 1)
    decreases AtLeastZero(env.caps.sessionTools - s.executed), AtLeastZero(env.caps.consecutiveErrors - s.errors)
  {
    hide TakeTurn, Measure;
    TurnProgress(env, s);
    TurnSendsAtMost(env, s);
    var (t, reason) := TakeTurn(env, s);
    var perTurn := env.caps.retries + 1;
    if reason.None? {
      MeasureOfTurn(env, s);
      TurnsSendAtMost(env, t);
      OneTurnLess(Measure(env, t), Measure(env, s), perTurn);
    } else {
      MeasurePositive(env, s);
      OneTurnLess(0, Measure(env, s), perTurn);
    }
  }

  lemma OneTurnLess(after: int, before: int, perTurn: int)
    requires after < before && perTurn >= 0
    ensures after * perTurn + perTurn <= before * perTurn
  {
    Monotone(after + 1, before, perTurn);
  }

  lemma MeasurePositive(env: Env, s: Session)
    requires Within(env, s)
    ensures Measure(env, s) >= 1
  {
    Monotone(1, env.caps.sessionTools - s.executed, env.caps.consecutiveErrors);
  }

  // A turn that does not end the session lowers the measure and keeps it positive.
  lemma MeasureOfTurn(env: Env, s: Session)
    requires Within(env, s) && TakeTurn(env, s).1.None?
    ensures var t := TakeTurn(env, s).0;
            Within(env, t) && 1 <= Measure(env, t) < Measure(env, s)
  {
    hide TakeTurn;
    var t := TakeTurn(env, s).0;
    TurnProgress(env, s);
    MeasureFalls(env.caps.sessionTools, env.caps.consecutiveErrors, s.executed, s.errors, t.executed, t.errors);
  }

  lemma {:induction false} InjectionsLeave(env: Env, s: Session, injections: seq<Injection>)
    ensures var t := InjectAll(env, s, injections);
            t.executed == s.executed && t.errors == s.errors && t.requestSeq == s.requestSeq && t.history == s.history
            && t.ended == s.ended && t.journalTools == s.journalTools
  {
    if injections != [] {
      InjectionsLeave(env, s, injections[..|injections| - 1]);
    }
  }

  // Every session ends, after at most T * M * (R + 1) model requests: T executed
  // intents, M consecutive errors, R retries of one call.
  lemma SessionsTerminate(env: Env, log: Log, usd: real, tokens: int)
    requires env.caps.sessionTools >= 1 && env.caps.consecutiveErrors >= 1 && env.caps.retries >= 0
    ensures WholeSession(env, log, usd, tokens).0.requestSeq
            <= env.caps.sessionTools * env.caps.consecutiveErrors * (env.caps.retries + 1)
  {
    var s := Begin(env, log, usd, tokens);
    InjectionsLeave(env, s, env.injections);
    TurnsSendAtMost(env, InjectAll(env, s, env.injections));
  }

  // --- the tool cap and the breaker ----------------------------------------------------------

  // While the session runs, the tool cap is not reached and no rule has tripped.
  ghost predicate Running(env: Env, s: Session) {
    && (s.executed < env.caps.sessionTools || (s.ended && s.executed <= env.caps.sessionTools))
    && Repetition.NeverTripped(env.caps.limits, s.history)
  }

  // The last model call gave up: its last answer was useless and either not worth
  // retrying or the last of 1 + `retries` useless answers in a row.
  ghost predicate GaveUp(env: Env, s: Session) {
    && s.requestSeq > 0
    && var answer := env.adapter(s.requestSeq);
       && IsUseless(env, s.requestSeq)
       && (answer.Fault? || (answer.ProviderError? && !answer.retryable)
           || UselessRun(env, s.requestSeq, env.caps.retries))
  }

  predicate IsUseless(env: Env, k: int) {
    k >= 1 && !IsUseful(env.adapter(k))
  }

  // The requests from `last - count` to `last` all got useless answers.
  ghost predicate UselessRun(env: Env, last: nat, count: int) {
    forall k: int :: last - count <= k <= last ==> IsUseless(env, k)
  }

  // The last row is a call that used the token cap up, and nothing was executed after it.
  ghost predicate HitTokenCap(env: Env, s: Session) {
    && s.log != [] && s.messages != []
    && var row := s.log[|s.log| - 1];
       var turn := s.messages[|s.messages| - 1];
       && row.LlmCall? && row.seqNo == s.requestSeq && row.tokens >= env.caps.sessionTokens
       && IsUseful(env.adapter(s.requestSeq)) && turn == Turn(env.adapter(s.requestSeq).response)
  }

  // How a session may stand at its end, given the reason it ended for.
  ghost predicate EndedBy(env: Env, s: Session, reason: Reason) {
    && s.executed <= env.caps.sessionTools
    && match reason
       case ByAgent => s.ended && Repetition.NeverTripped(env.caps.limits, s.history)
       case ToolCap =>
         s.executed == env.caps.sessionTools && !s.ended && Repetition.NeverTripped(env.caps.limits, s.history)
       case RepetitionTripped =>
         && s.history != [] && Repetition.Verdict(env.caps.limits, s.history).Some?
         && Repetition.NeverTripped(env.caps.limits, s.history[..|s.history| - 1])
       case TokenCap => HitTokenCap(env, s) && !s.ended && Repetition.NeverTripped(env.caps.limits, s.history)
       case Errors =>
         && (s.errors >= env.caps.consecutiveErrors || GaveUp(env, s))
         && Repetition.NeverTripped(env.caps.limits, s.history)
  }

  lemma OneMoreUseless(env: Env, last: nat, count: int)
    requires UselessRun(env, last, count - 1) && IsUseless(env, last + 1)
    ensures UselessRun(env, last + 1, count)
  {
  }

  lemma {:induction false} AskModelGivesUp(env: Env, s: Session, attempt: nat)
    requires UselessRun(env, s.requestSeq, attempt - 1)
    ensures var (t, response) := AskModel(env, s, attempt);
            && t.requestSeq > s.requestSeq
            && (response.None? ==> GaveUp(env, t))
            && (response.Some? ==> CalledLast(env, t, response.value))
    decreases env.caps.retries - attempt
  {
    hide UselessRun;
    var answer := env.adapter(s.requestSeq + 1);
    if !IsUseful(answer) {
      OneMoreUseless(env, s.requestSeq, attempt);
      if GivesUp(env, answer, attempt) {
        ShorterRun(env, s.requestSeq + 1, attempt, env.caps.retries);
      } else {
        AskModelGivesUp(env, Attempt(env, s), attempt + 1);
      }
    }
  }

  lemma NoRun(env: Env, last: nat)
    ensures UselessRun(env, last, -1)
  {
  }

  lemma ShorterRun(env: Env, last: nat, count: int, fewer: int)
    requires UselessRun(env, last, count)
    ensures fewer <= count ==> UselessRun(env, last, fewer)
  {
  }

  // The last row is the call that brought the response.
  predicate CalledLast(env: Env, s: Session, r: Response) {
    && env.adapter(s.requestSeq) == Answered(r) && !IsEmpty(r)
    && s.log != [] && var row := s.log[|s.log| - 1];
       row.LlmCall? && row.seqNo == s.requestSeq && row.tokens == r.usage.input + r.usage.output
  }

  lemma NeverTrippedGrows(l: Repetition.Limits, h: seq<Repetition.Call>, c: Repetition.Call)
    requires Repetition.NeverTripped(l, h) && Repetition.Verdict(l, h + [c]).None?
    ensures Repetition.NeverTripped(l, h + [c])
  {
    forall k | 1 <= k <= |h + [c]|
      ensures Repetition.Verdict(l, (h + [c])[..k]).None?
    {
      if k <= |h| {
        assert (h + [c])[..k] == h[..k];
      } else {
        assert (h + [c])[..k] == h + [c];
      }
    }
  }

  lemma ExecuteCounts(env: Env, s: Session, call: ToolCall)
    ensures var t := Execute(env, s, call);
            t.executed == s.executed + 1 && t.history == s.history && (s.ended ==> t.ended)
  {
  }

  lemma JudgeIsRight(env: Env, s: Session, call: ToolCall, o: Outcome, rest: seq<ToolCall>)
    requires s.executed <= env.caps.sessionTools && Repetition.NeverTripped(env.caps.limits, s.history)
    ensures var (t, reason) := Judge(env, s, call, o, rest);
            if reason.Some? then EndedBy(env, t, reason.value) else Running(env, t)
  {
    hide Repetition.Verdict, Repetition.NeverTripped, Carry;
    var recorded := Record(env, s, call, !o.ok || o.revertShaped);
    var c := Repetition.Call(env.signature(call), call.name, !o.ok || o.revertShaped);
    CarrySetsTheWake(env, s, rest);
    CarrySetsTheWake(env, recorded, rest);
    assert recorded.history[..|recorded.history| - 1] == s.history;
    if Repetition.Verdict(env.caps.limits, recorded.history).None? {
      NeverTrippedGrows(env.caps.limits, s.history, c);
    }
  }

  lemma {:induction false} BatchIsRight(env: Env, s: Session, calls: seq<ToolCall>)
    requires Running(env, s)
    ensures var (t, reason) := Batch(env, s, calls);
            if reason.Some? then EndedBy(env, t, reason.value) else Running(env, t)
    decreases |calls|
  {
    hide Repetition.NeverTripped, Execute, Judge, Skip;
    if calls != [] {
      if s.ended {
        SkipAddsARow(env, s, calls[0]);
        BatchIsRight(env, Skip(env, s, calls[0]), calls[1..]);
      } else {
        ExecuteCounts(env, s, calls[0]);
        JudgeIsRight(env, Execute(env, s, calls[0]), calls[0], env.tools(s.executed), calls[1..]);
        var (s1, reason) := Judge(env, Execute(env, s, calls[0]), calls[0], env.tools(s.executed), calls[1..]);
        if reason.None? {
          BatchIsRight(env, s1, calls[1..]);
        }
      }
    }
  }

  lemma TurnIsRight(env: Env, s: Session)
    requires Running(env, s) && !s.ended
    ensures var (t, reason) := TakeTurn(env, s);
            if reason.Some? then EndedBy(env, t, reason.value) else Running(env, t)
  {
    hide Repetition.NeverTripped, AskModel, Batch, Carry, GaveUp, UselessRun;
    AskModelKeeps(env, s, 0);
    NoRun(env, s.requestSeq);
    AskModelGivesUp(env, s, 0);
    var (s1, response) := AskModel(env, s, 0);
    if response.Some? {
      var r := response.value;
      CarrySetsTheWake(env, Listen(s1, r), r.calls);
      BatchIsRight(env, Listen(s1, r), r.calls);
    }
  }

  lemma {:induction false} TurnsAreRight(env: Env, s: Session)
    requires Running(env, s) && !s.ended
    ensures EndedBy(env, Turns(env, s).0, Turns(env, s).1)
    decreases AtLeastZero(env.caps.sessionTools - s.executed), AtLeastZero(env.caps.consecutiveErrors - s.errors)
  {
    hide Running, EndedBy, TakeTurn;
    TurnProgress(env, s);
    TurnIsRight(env, s);
    if TakeTurn(env, s).1.None? {
      TurnsAreRight(env, TakeTurn(env, s).0);
    }
  }

  // The tool cap bounds the executed intents, the reason a session ended for is the
  // one that holds, and no stretch of the recorded calls broke a breaker rule except
  // the one that ended the session.
  lemma SessionsEndForTheirReason(env: Env, log: Log, usd: real, tokens: int)
    requires env.caps.sessionTools >= 1
    ensures var (s, reason) := WholeSession(env, log, usd, tokens);
            && EndedBy(env, s, reason)
            && (reason != RepetitionTripped ==> Repetition.NeverTripped(env.caps.limits, s.history))
  {
    var s := Begin(env, log, usd, tokens);
    InjectionsLeave(env, s, env.injections);
    TurnsAreRight(env, InjectAll(env, s, env.injections));
  }
}
