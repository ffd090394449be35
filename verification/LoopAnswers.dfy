/**
 What each answer of the model leads to: which answers are retried and which end the
 session, and what the context guard stops.
 */
module LoopAnswers {
  import opened Options
  import opened Conversation
  import opened Telemetry
  import opened AgentLoop
  import LoopBounds

  // --- what the loop makes of an answer -----------------------------------------------------------

  // An answer that the loop listens to: it says something, calls something or is billed.
  predicate IsHeard(answer: Answer) {
    && answer.Answered?
    && (answer.response.texts != [] || answer.response.calls != []
        || answer.response.usage.input > 0 || answer.response.usage.output > 0)
  }

  lemma HeardIsUseful(answer: Answer)
    ensures IsHeard(answer) <==> IsUseful(answer)
  {
  }

  predicate IsRejected(env: Env, n: int) {
    n >= 1 && !IsHeard(env.adapter(n))
  }

  // An error that is not worth another try.
  predicate IsFatal(answer: Answer) {
    answer.Fault? || (answer.ProviderError? && !answer.retryable)
  }

  // Answer `n` is the last of a call: a fatal error, or the last of 1 + `retries`
  // answers in a row that were rejected.
  ghost predicate IsGivenUp(env: Env, n: int) {
    && IsRejected(env, n)
    && (IsFatal(env.adapter(n)) || forall k :: n - env.caps.retries <= k <= n ==> IsRejected(env, k))
  }

  ghost predicate NoneGivenUp(env: Env, n: int) {
    forall k :: 1 <= k <= n ==> !IsGivenUp(env, k)
  }

  // The last `run` answers, and no more, were rejected.
  ghost predicate RejectedRun(env: Env, last: nat, run: nat) {
    && run <= last && !IsRejected(env, last - run)
    && forall k :: last - run < k <= last ==> IsRejected(env, k)
  }

  lemma GivingUpIsRight(env: Env, last: nat, run: nat)
    requires RejectedRun(env, last, run) && IsRejected(env, last + 1)
    ensures GivesUp(env, env.adapter(last + 1), run) <==> IsGivenUp(env, last + 1)
    ensures RejectedRun(env, last + 1, run + 1)
  {
    if run < env.caps.retries {
      assert !IsRejected(env, last - run);
    }
  }

  lemma OneMoreNotGivenUp(env: Env, n: nat)
    requires NoneGivenUp(env, n) && !IsGivenUp(env, n + 1)
    ensures NoneGivenUp(env, n + 1)
  {
    hide IsGivenUp;
  }

  // One model call: it goes on exactly until an answer is heard or given up.
  lemma {:induction false} AskModelAsksAgain(env: Env, s: Session, attempt: nat)
    requires RejectedRun(env, s.requestSeq, attempt) && NoneGivenUp(env, s.requestSeq)
    ensures var (t, response) := AskModel(env, s, attempt);
            && t.requestSeq > 0 && NoneGivenUp(env, t.requestSeq - 1)
            && (response.None? <==> IsGivenUp(env, t.requestSeq))
            && (response.Some? <==> IsHeard(env.adapter(t.requestSeq)))
            && (response.Some? ==> env.adapter(t.requestSeq) == Answered(response.value))
    decreases env.caps.retries - attempt
  {
    hide RejectedRun, NoneGivenUp, IsGivenUp, IsHeard, IsEmpty;
    var n := s.requestSeq + 1;
    var answer := env.adapter(n);
    HeardIsUseful(answer);
    if IsUseful(answer) {
      HeardIsNotGivenUp(env, n);
    } else {
      GivingUpIsRight(env, s.requestSeq, attempt);
      if !GivesUp(env, answer, attempt) {
        OneMoreNotGivenUp(env, s.requestSeq);
        AskModelAsksAgain(env, Attempt(env, s), attempt + 1);
      }
    }
  }

  lemma HeardIsNotGivenUp(env: Env, n: nat)
    requires IsHeard(env.adapter(n))
    ensures !IsGivenUp(env, n) && !IsRejected(env, n)
  {
  }

  // --- what a call is billed, and what it uses up -------------------------------------------------

  // The row of a call that uses the token cap up; with a cap of no tokens at all, only a
  // call whose answer is heard does.
  predicate UsesTheCapUp(env: Env, e: Event) {
    && e.LlmCall? && e.tokens >= env.caps.sessionTokens
    && (env.caps.sessionTokens > 0 || IsHeard(env.adapter(e.seqNo)))
  }

  ghost predicate BelowTheCap(env: Env, log: Log, from: nat) {
    forall i :: from <= i < |log| ==> !UsesTheCapUp(env, log[i])
  }

  // What the loop has seen after `s.requestSeq` answers, with the last one heard or none.
  ghost predicate InOrder(env: Env, from: nat, s: Session) {
    && from <= |s.log| && BelowTheCap(env, s.log, from)
    && NoneGivenUp(env, s.requestSeq) && RejectedRun(env, s.requestSeq, 0)
  }

  // How the session may end.
  ghost predicate EndsInOrder(env: Env, from: nat, s: Session, reason: Reason) {
    && from < |s.log| && s.requestSeq > 0
    && BelowTheCap(env, s.log[..|s.log| - 1], from) && NoneGivenUp(env, s.requestSeq - 1)
    && (UsesTheCapUp(env, s.log[|s.log| - 1]) <==> reason == TokenCap)
    && (reason == TokenCap ==> s.log[|s.log| - 1].seqNo == s.requestSeq)
    && (IsGivenUp(env, s.requestSeq) <==> IsRejected(env, s.requestSeq))
    && (IsRejected(env, s.requestSeq) ==> reason == Errors)
  }

  // A rejected answer is billed nothing.
  lemma {:induction false} AskModelBills(env: Env, from: nat, s: Session, attempt: nat)
    requires from <= |s.log| && BelowTheCap(env, s.log, from)
    ensures var (t, response) := AskModel(env, s, attempt);
            && |t.log| >= |s.log| + 2 && BelowTheCap(env, t.log[..|t.log| - 1], from)
            && var last := t.log[|t.log| - 1];
               && last.LlmCall? && last.seqNo == t.requestSeq
               && (response.Some? ==> last.tokens == response.value.usage.input + response.value.usage.output)
               && (response.None? ==> !UsesTheCapUp(env, last))
    decreases env.caps.retries - attempt
  {
    var answer := env.adapter(s.requestSeq + 1);
    HeardIsUseful(answer);
    AttemptBills(env, from, s);
    if !IsUseful(answer) && !GivesUp(env, answer, attempt) {
      BelowWithLast(env, from, Attempt(env, s).log);
      AskModelBills(env, from, Attempt(env, s), attempt + 1);
    }
  }

  lemma BelowWithLast(env: Env, from: nat, log: Log)
    requires log != [] && BelowTheCap(env, log[..|log| - 1], from) && !UsesTheCapUp(env, log[|log| - 1])
    ensures BelowTheCap(env, log, from)
  {
    assert forall i :: 0 <= i < |log| - 1 ==> log[..|log| - 1][i] == log[i];
  }

  lemma AttemptBills(env: Env, from: nat, s: Session)
    requires from <= |s.log| && BelowTheCap(env, s.log, from)
    ensures var t := Attempt(env, s);
            var answer := env.adapter(s.requestSeq + 1);
            && |t.log| == |s.log| + 2 && t.requestSeq == s.requestSeq + 1
            && BelowTheCap(env, t.log[..|t.log| - 1], from)
            && var last := t.log[|t.log| - 1];
               && last.LlmCall? && last.seqNo == t.requestSeq
               && (IsUseful(answer) ==>
                     last.tokens == answer.response.usage.input + answer.response.usage.output)
               && (!IsUseful(answer) ==> !UsesTheCapUp(env, last))
  {
    HeardIsUseful(env.adapter(s.requestSeq + 1));
    assert Attempt(env, s).log[..|s.log| + 1] == s.log + [LlmRequest(env.session, s.requestSeq + 1)];
  }

  // The rows of tool executions are no model calls.
  lemma ExecuteStaysBelow(env: Env, from: nat, s: Session, call: ToolCall)
    requires from <= |s.log| && BelowTheCap(env, s.log, from)
    ensures var t := Execute(env, s, call); |t.log| > |s.log| && BelowTheCap(env, t.log, from)
  {
    hide HashesOf, Collect, IsHeard;
    SetWakeLeavesTheLog(env, s, call);
  }

  lemma {:induction false} BatchStaysBelow(env: Env, from: nat, s: Session, calls: seq<ToolCall>)
    requires from <= |s.log| && BelowTheCap(env, s.log, from)
    ensures var t := Batch(env, s, calls).0;
            && |t.log| >= |s.log| && BelowTheCap(env, t.log, from)
            && Batch(env, s, calls).1 != Some(TokenCap)
    decreases |calls|
  {
    hide Execute, Judge, Skip, BelowTheCap;
    if calls != [] {
      if s.ended {
        SkipStaysBelow(env, from, s, calls[0]);
        BatchStaysBelow(env, from, Skip(env, s, calls[0]), calls[1..]);
      } else {
        var s1 := Execute(env, s, calls[0]);
        ExecuteStaysBelow(env, from, s, calls[0]);
        JudgeOnlyRecords(env, s1, calls[0], env.tools(s.executed), calls[1..]);
        JudgeIsNoTokenCap(env, s1, calls[0], env.tools(s.executed), calls[1..]);
        var (s2, reason) := Judge(env, s1, calls[0], env.tools(s.executed), calls[1..]);
        if reason.None? {
          BatchStaysBelow(env, from, s2, calls[1..]);
        }
      }
    }
  }

  lemma SkipStaysBelow(env: Env, from: nat, s: Session, call: ToolCall)
    requires from <= |s.log| && BelowTheCap(env, s.log, from)
    ensures var t := Skip(env, s, call); |t.log| > |s.log| && BelowTheCap(env, t.log, from)
  {
  }

  lemma JudgeIsNoTokenCap(env: Env, s: Session, call: ToolCall, o: Outcome, rest: seq<ToolCall>)
    ensures Judge(env, s, call, o, rest).1 != Some(TokenCap)
  {
  }

  // --- a turn, and the session ------------------------------------------------------------------------

  lemma HeardRun(env: Env, n: nat)
    requires IsHeard(env.adapter(n)) && n > 0 && NoneGivenUp(env, n - 1)
    ensures RejectedRun(env, n, 0) && NoneGivenUp(env, n)
  {
    hide IsHeard, IsGivenUp;
    HeardIsNotGivenUp(env, n);
    OneMoreNotGivenUp(env, n - 1);
  }

  lemma EndsBelow(env: Env, from: nat, s: Session, reason: Reason)
    requires from < |s.log| && s.requestSeq > 0 && BelowTheCap(env, s.log, from) && reason != TokenCap
    requires NoneGivenUp(env, s.requestSeq - 1)
    requires IsGivenUp(env, s.requestSeq) <==> IsRejected(env, s.requestSeq)
    requires IsRejected(env, s.requestSeq) ==> reason == Errors
    ensures EndsInOrder(env, from, s, reason)
  {
    hide IsGivenUp, NoneGivenUp, IsRejected, UsesTheCapUp;
  }

  lemma TurnIsInOrder(env: Env, from: nat, s: Session)
    requires InOrder(env, from, s)
    ensures var (t, reason) := TakeTurn(env, s);
            if reason.None? then InOrder(env, from, t) else EndsInOrder(env, from, t, reason.value)
  {
    hide BelowTheCap, NoneGivenUp, RejectedRun, IsGivenUp, IsRejected, UsesTheCapUp, AskModel, Batch, Carry;
    hide EndsInOrder;
    AskModelAsksAgain(env, s, 0);
    AskModelBills(env, from, s, 0);
    var (s1, response) := AskModel(env, s, 0);
    if response.None? {
      BelowWithLast(env, from, s1.log);
      GivenUpIsRejected(env, s1.requestSeq);
      EndsBelow(env, from, s1, Errors);
    } else {
      HeardIsNotGivenUp(env, s1.requestSeq);
      HeardRun(env, s1.requestSeq);
      HeardTurn(env, from, Listen(s1, response.value), response.value);
    }
  }

  lemma GivenUpIsRejected(env: Env, n: nat)
    requires IsGivenUp(env, n)
    ensures IsRejected(env, n)
  {
  }

  lemma CapIsUsedUp(env: Env, from: nat, s: Session, r: Response)
    requires LastWasHeard(env, from, s, r)
    requires r.usage.input + r.usage.output >= env.caps.sessionTokens
    ensures EndsInOrder(env, from, Carry(env, s, r.calls), TokenCap)
  {
    hide BelowTheCap, NoneGivenUp, IsGivenUp, Carry, IsHeard;
    CarrySetsTheWake(env, s, r.calls);
  }

  // The last row is the call that brought `r`, and no call before it used the cap up.
  ghost predicate LastWasHeard(env: Env, from: nat, s: Session, r: Response) {
    && from < |s.log| && s.requestSeq > 0 && BelowTheCap(env, s.log[..|s.log| - 1], from)
    && var last := s.log[|s.log| - 1];
       && last.LlmCall? && last.seqNo == s.requestSeq && last.tokens == r.usage.input + r.usage.output
       && env.adapter(s.requestSeq) == Answered(r) && IsHeard(Answered(r))
       && !IsGivenUp(env, s.requestSeq) && !IsRejected(env, s.requestSeq)
       && NoneGivenUp(env, s.requestSeq - 1) && NoneGivenUp(env, s.requestSeq) && RejectedRun(env, s.requestSeq, 0)
  }

  lemma HeardTurn(env: Env, from: nat, s: Session, r: Response)
    requires LastWasHeard(env, from, s, r)
    ensures r.usage.input + r.usage.output >= env.caps.sessionTokens ==>
              EndsInOrder(env, from, Carry(env, s, r.calls), TokenCap)
    ensures r.usage.input + r.usage.output < env.caps.sessionTokens ==>
              && InOrder(env, from,
                         s.(errors := s.errors + 1, messages := s.messages + [UserMessage(env.continuation)]))
              && EndsInOrder(env, from, s.(errors := s.errors + 1), Errors)
              && var (t, reason) := Batch(env, s, r.calls);
                 if reason.None? then InOrder(env, from, t) else EndsInOrder(env, from, t, reason.value)
  {
    hide BelowTheCap, NoneGivenUp, RejectedRun, IsGivenUp, IsRejected, Batch, Carry, EndsInOrder, IsHeard;
    if r.usage.input + r.usage.output >= env.caps.sessionTokens {
      CapIsUsedUp(env, from, s, r);
    } else {
      BelowWithLast(env, from, s.log);
      EndsBelow(env, from, s.(errors := s.errors + 1), Errors);
      BatchStaysBelow(env, from, s, r.calls);
      LoopBounds.BatchSendsNothing(env, s, r.calls);
      var (t, reason) := Batch(env, s, r.calls);
      if reason.Some? {
        EndsBelow(env, from, t, reason.value);
      }
    }
  }

  lemma {:induction false} TurnsAreInOrder(env: Env, from: nat, s: Session)
    requires InOrder(env, from, s)
    ensures EndsInOrder(env, from, Turns(env, s).0, Turns(env, s).1)
    decreases AtLeastZero(env.caps.sessionTools - s.executed), AtLeastZero(env.caps.consecutiveErrors - s.errors)
  {
    hide InOrder, EndsInOrder, TakeTurn;
    TurnProgress(env, s);
    TurnIsInOrder(env, from, s);
    if TakeTurn(env, s).1.None? {
      TurnsAreInOrder(env, from, TakeTurn(env, s).0);
    }
  }

  lemma {:induction false} InjectionsAreInOrder(env: Env, from: nat, s: Session, injections: seq<Injection>)
    requires InOrder(env, from, s)
    ensures InOrder(env, from, InjectAll(env, s, injections))
  {
    hide NoneGivenUp, RejectedRun;
    if injections != [] {
      InjectionsAreInOrder(env, from, s, injections[..|injections| - 1]);
    }
  }

  lemma SessionIsInOrder(env: Env, log: Log, usd: real, tokens: int)
    ensures var (s, reason) := WholeSession(env, log, usd, tokens); EndsInOrder(env, |log|, s, reason)
  {
    hide InOrder, EndsInOrder, Turns, InjectAll;
    var s := Begin(env, log, usd, tokens);
    assert InOrder(env, |log|, s) by { BeginsInOrder(env, log, usd, tokens); }
    InjectionsAreInOrder(env, |log|, s, env.injections);
    TurnsAreInOrder(env, |log|, InjectAll(env, s, env.injections));
  }

  lemma BeginsInOrder(env: Env, log: Log, usd: real, tokens: int)
    ensures InOrder(env, |log|, Begin(env, log, usd, tokens))
  {
  }

  // --- the main results ---------------------------------------------------------------------------------

  // The context guard: a call whose tokens reach the cap is the last row of the session,
  // which ends for that reason; and a session ends for that reason only after such a call.
  // With a cap of no tokens at all, this is so of the calls whose answer is heard.
  lemma TokenCapEndsTheSession(env: Env, log: Log, usd: real, tokens: int)
    ensures var (s, reason) := WholeSession(env, log, usd, tokens);
            && (forall i :: |log| <= i < |s.log| && s.log[i].LlmCall? && s.log[i].tokens >= env.caps.sessionTokens ==>
                              env.caps.sessionTokens > 0 || IsHeard(env.adapter(s.log[i].seqNo)) ==>
                                i == |s.log| - 1 && reason == TokenCap)
            && (reason == TokenCap ==>
                  && |s.log| > |log|
                  && var last := s.log[|s.log| - 1];
                     last.LlmCall? && IsHeard(env.adapter(last.seqNo)) && last.tokens >= env.caps.sessionTokens)
  {
    hide WholeSession, IsHeard, NoneGivenUp, IsGivenUp;
    SessionIsInOrder(env, log, usd, tokens);
    var (s, reason) := WholeSession(env, log, usd, tokens);
    assert forall i :: 0 <= i < |s.log| - 1 ==> s.log[..|s.log| - 1][i] == s.log[i];
  }

  // Which answers are retried: of all the answers of a session, none before the last was
  // one to give up on, and the last was exactly when it was not heard; the session then
  // ended for errors.
  lemma RejectedAnswersAreRetried(env: Env, log: Log, usd: real, tokens: int, n: int)
    requires 1 <= n <= WholeSession(env, log, usd, tokens).0.requestSeq
    ensures var (s, reason) := WholeSession(env, log, usd, tokens);
            && (IsGivenUp(env, n) <==> n == s.requestSeq && IsRejected(env, n))
            && (IsRejected(env, s.requestSeq) ==> reason == Errors)
  {
    hide WholeSession, IsRejected, IsGivenUp, BelowTheCap;
    SessionIsInOrder(env, log, usd, tokens);
  }
}
