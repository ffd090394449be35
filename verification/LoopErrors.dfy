/**
 The count of consecutive errors: what counts as one, what sets it back, and that a session
 ends for errors exactly when it reaches its cap or a model call is given up.
 */
module LoopErrors {
  import opened Options
  import opened Conversation
  import opened AgentLoop
  import opened LoopAnswers
  import opened LoopTranscript
  import LoopBounds
  import Telemetry

  // --- what counts --------------------------------------------------------------------------------

  // How the first `count` calls of an answer went; the first of them is the `from`-th that
  // the session executes.
  function Went(env: Env, from: nat, count: nat): seq<bool> {
    seq(count, j requires 0 <= j < count => env.tools(from + j).ok)
  }

  // What an answer adds: how its calls went, or an error when it was heard and made none.
  function Marks(env: Env, n: nat): seq<bool> {
    if n == 0 then []
    else Marks(env, n - 1)
         + if !IsHeard(env.adapter(n)) then []
           else if env.adapter(n).response.calls == [] then [false]
           else Went(env, CallsMade(env, n - 1), |env.adapter(n).response.calls|)
  }

  // How many errors there are since the last success.
  function ErrorsAtEnd(marks: seq<bool>): nat {
    if marks == [] || marks[|marks| - 1] then 0 else 1 + ErrorsAtEnd(marks[..|marks| - 1])
  }

  // An error that brings the count to the cap.
  predicate ReachesTheCap(env: Env, marks: seq<bool>) {
    marks != [] && !marks[|marks| - 1] && ErrorsAtEnd(marks) >= env.caps.consecutiveErrors
  }

  ghost predicate NoneReaches(env: Env, marks: seq<bool>) {
    forall k :: 0 <= k <= |marks| ==> !ReachesTheCap(env, marks[..k])
  }

  // What the last answer of a session adds: nothing when it was rejected or used the token
  // cap up, and otherwise what came of it until the session ended.
  function LastMarks(env: Env, s: Session, reason: Reason): seq<bool>
    requires s.requestSeq > 0
  {
    var n := s.requestSeq;
    if !IsHeard(env.adapter(n)) || reason == TokenCap then []
    else if env.adapter(n).response.calls == [] then [false]
    else if s.executed < CallsMade(env, n - 1) then []
    else Went(env, CallsMade(env, n - 1), s.executed - CallsMade(env, n - 1))
  }

  // --- the loop counts them -----------------------------------------------------------------------

  ghost predicate Counts(env: Env, s: Session, marks: seq<bool>) {
    s.errors == ErrorsAtEnd(marks) && NoneReaches(env, marks)
  }

  // The last mark is the first to reach the cap, exactly when the session ends for it.
  ghost predicate CountsToTheEnd(env: Env, s: Session, marks: seq<bool>, reached: bool) {
    && s.errors == ErrorsAtEnd(marks)
    && (marks != [] ==> NoneReaches(env, marks[..|marks| - 1]))
    && (ReachesTheCap(env, marks) <==> reached)
  }

  lemma OneMoreMark(env: Env, marks: seq<bool>, ok: bool)
    requires NoneReaches(env, marks)
    ensures var all := marks + [ok];
            && ErrorsAtEnd(all) == (if ok then 0 else ErrorsAtEnd(marks) + 1)
            && all[..|all| - 1] == marks
            && (ReachesTheCap(env, all) <==> !ok && ErrorsAtEnd(marks) + 1 >= env.caps.consecutiveErrors)
            && (!ReachesTheCap(env, all) ==> NoneReaches(env, all))
  {
    var all := marks + [ok];
    assert all[..|marks|] == marks;
    forall k | 0 <= k <= |all|
      ensures ReachesTheCap(env, all[..k]) ==> k == |all|
    {
      if k <= |marks| {
        assert all[..k] == marks[..k];
      }
    }
    assert all[..|all|] == all;
  }

  lemma CountsEnd(env: Env, s: Session, marks: seq<bool>)
    requires Counts(env, s, marks)
    ensures CountsToTheEnd(env, s, marks, false)
  {
    hide ReachesTheCap, ErrorsAtEnd;
    assert marks[..|marks|] == marks;
    if marks != [] {
      var before := marks[..|marks| - 1];
      forall k | 0 <= k <= |before|
        ensures !ReachesTheCap(env, before[..k])
      {
        assert before[..k] == marks[..k];
      }
    }
  }

  // --- a batch ------------------------------------------------------------------------------------

  lemma ExecuteMarks(env: Env, s: Session, call: ToolCall)
    ensures var t := Execute(env, s, call);
            && t.errors == (if env.tools(s.executed).ok then 0 else s.errors + 1)
            && t.executed == s.executed + 1
  {
    hide HashesOf, Collect;
    SetWakeCountsNothing(env, s, call);
  }

  lemma SetWakeCountsNothing(env: Env, s: Session, call: ToolCall)
    ensures SetWake(env, s, call).errors == s.errors && SetWake(env, s, call).executed == s.executed
  {
  }

  lemma JudgeEndsForErrors(env: Env, s: Session, call: ToolCall, o: Outcome, rest: seq<ToolCall>)
    ensures Judge(env, s, call, o, rest).1 == Some(Errors) <==> !o.ok && s.errors >= env.caps.consecutiveErrors
  {
  }

  lemma {:induction false} SkippedCounts(env: Env, s: Session, calls: seq<ToolCall>)
    requires s.ended
    ensures var (t, reason) := Batch(env, s, calls);
            t.errors == s.errors && t.executed == s.executed && reason == Some(ByAgent)
    decreases |calls|
  {
    hide Skip;
    if calls != [] {
      SkipAddsARow(env, s, calls[0]);
      SkippedCounts(env, Skip(env, s, calls[0]), calls[1..]);
    }
  }

  lemma WentFollows(env: Env, from: nat, count: nat)
    ensures Went(env, from, count + 1) == [env.tools(from).ok] + Went(env, from + 1, count)
  {
    var rest := Went(env, from + 1, count);
    forall j | 0 <= j < |rest|
      ensures Went(env, from, count + 1)[j + 1] == rest[j]
    {
      assert from + (j + 1) == from + 1 + j;
    }
  }

  // The calls of a batch are counted one by one.
  lemma {:induction false} BatchCounts(env: Env, s: Session, calls: seq<ToolCall>, marks: seq<bool>)
    requires Counts(env, s, marks) && !s.ended
    ensures var (t, reason) := Batch(env, s, calls);
            && s.executed <= t.executed <= s.executed + |calls|
            && var all := marks + Went(env, s.executed, t.executed - s.executed);
               if reason.None? then Counts(env, t, all) && t.executed == s.executed + |calls|
               else CountsToTheEnd(env, t, all, reason.value == Errors)
    decreases |calls|, 0
  {
    hide Counts, CountsToTheEnd, Execute, Judge, Went, NoneReaches, ReachesTheCap;
    if calls == [] {
      NothingWent(env, s.executed);
      assert marks + [] == marks;
    } else {
      var s1 := Execute(env, s, calls[0]);
      var o := env.tools(s.executed);
      ExecuteMarks(env, s, calls[0]);
      JudgeOnlyRecords(env, s1, calls[0], o, calls[1..]);
      JudgeEndsForErrors(env, s1, calls[0], o, calls[1..]);
      var (s2, reason) := Judge(env, s1, calls[0], o, calls[1..]);
      OneCounted(env, s, s2, marks, o.ok);
      OneWent(env, s.executed);
      if reason.None? {
        RestCounts(env, s2, calls[1..], marks + [o.ok]);
        var t := Batch(env, s2, calls[1..]).0;
        WentFollows(env, s.executed, t.executed - s2.executed);
        assert marks + ([o.ok] + Went(env, s2.executed, t.executed - s2.executed))
            == marks + [o.ok] + Went(env, s2.executed, t.executed - s2.executed);
      }
    }
  }

  lemma NothingWent(env: Env, from: nat)
    ensures Went(env, from, 0) == []
  {
  }

  lemma OneWent(env: Env, from: nat)
    ensures Went(env, from, 1) == [env.tools(from).ok]
  {
  }

  lemma OneCounted(env: Env, s: Session, t: Session, marks: seq<bool>, ok: bool)
    requires Counts(env, s, marks) && t.errors == if ok then 0 else s.errors + 1
    ensures var reached := !ok && t.errors >= env.caps.consecutiveErrors;
            && CountsToTheEnd(env, t, marks + [ok], reached)
            && (!reached ==> Counts(env, t, marks + [ok]))
  {
    hide ReachesTheCap, NoneReaches, ErrorsAtEnd;
    OneMoreMark(env, marks, ok);
  }

  lemma {:induction false} RestCounts(env: Env, s: Session, rest: seq<ToolCall>, marks: seq<bool>)
    requires Counts(env, s, marks)
    ensures var (t, reason) := Batch(env, s, rest);
            && s.executed <= t.executed <= s.executed + |rest|
            && var all := marks + Went(env, s.executed, t.executed - s.executed);
               if reason.None? then Counts(env, t, all) && t.executed == s.executed + |rest|
               else CountsToTheEnd(env, t, all, reason.value == Errors)
    decreases |rest|, 1
  {
    hide Counts, CountsToTheEnd, Batch, Went;
    if s.ended {
      SkippedCounts(env, s, rest);
      NothingWent(env, s.executed);
      assert marks + [] == marks;
      SameCount(env, s, Batch(env, s, rest).0, marks);
      CountsEnd(env, Batch(env, s, rest).0, marks);
    } else {
      BatchCounts(env, s, rest, marks);
    }
  }

  lemma SameCount(env: Env, s: Session, t: Session, marks: seq<bool>)
    requires Counts(env, s, marks) && t.errors == s.errors
    ensures Counts(env, t, marks)
  {
  }

  // --- a turn, and the session ----------------------------------------------------------------------

  ghost predicate Counted(env: Env, s: Session) {
    Counts(env, s, Marks(env, s.requestSeq)) && s.executed == CallsMade(env, s.requestSeq) && !s.ended
  }

  ghost predicate EndsCounted(env: Env, s: Session, reason: Reason) {
    && s.requestSeq > 0
    && CountsToTheEnd(env, s, Marks(env, s.requestSeq - 1) + LastMarks(env, s, reason),
                      reason == Errors && IsHeard(env.adapter(s.requestSeq)))
  }

  lemma AttemptCountsNothing(env: Env, s: Session)
    ensures var t := Attempt(env, s);
            && t.requestSeq == s.requestSeq + 1
            && t.errors == s.errors && t.executed == s.executed && t.ended == s.ended
  {
  }

  lemma NothingMarked(env: Env, n: nat)
    requires n > 0 && !IsHeard(env.adapter(n))
    ensures Marks(env, n) == Marks(env, n - 1) && CallsMade(env, n) == CallsMade(env, n - 1)
  {
  }

  lemma {:induction false} AskModelCountsNothing(env: Env, s: Session, attempt: nat)
    ensures var (t, response) := AskModel(env, s, attempt);
            && t.requestSeq > 0 && t.errors == s.errors && t.executed == s.executed && t.ended == s.ended
            && Marks(env, t.requestSeq - 1) == Marks(env, s.requestSeq)
            && CallsMade(env, t.requestSeq - 1) == CallsMade(env, s.requestSeq)
            && (response.Some? <==> IsHeard(env.adapter(t.requestSeq)))
            && (response.Some? ==> env.adapter(t.requestSeq) == Answered(response.value))
    decreases env.caps.retries - attempt
  {
    hide IsHeard, IsEmpty, Marks, CallsMade, Attempt;
    var answer := env.adapter(s.requestSeq + 1);
    HeardIsUseful(answer);
    AttemptCountsNothing(env, s);
    if !IsUseful(answer) && !GivesUp(env, answer, attempt) {
      NothingMarked(env, s.requestSeq + 1);
      AskModelCountsNothing(env, Attempt(env, s), attempt + 1);
    }
  }

  lemma QuietEnd(env: Env, s: Session, reason: Reason)
    requires s.requestSeq > 0 && Counts(env, s, Marks(env, s.requestSeq - 1))
    requires !IsHeard(env.adapter(s.requestSeq)) || reason == TokenCap
    ensures EndsCounted(env, s, reason)
  {
    hide Counts, CountsToTheEnd, Marks, CallsMade, IsHeard;
    CountsEnd(env, s, Marks(env, s.requestSeq - 1));
    assert Marks(env, s.requestSeq - 1) + [] == Marks(env, s.requestSeq - 1);
  }

  // A heard answer without calls is one error.
  lemma TextCounts(env: Env, s: Session, t: Session)
    requires s.requestSeq > 0 && IsHeard(env.adapter(s.requestSeq)) && env.adapter(s.requestSeq).response.calls == []
    requires Counts(env, s, Marks(env, s.requestSeq - 1)) && !s.ended
    requires s.executed == CallsMade(env, s.requestSeq - 1)
    requires t == s.(errors := s.errors + 1, messages := t.messages)
    ensures t.errors >= env.caps.consecutiveErrors ==> EndsCounted(env, t, Errors)
    ensures t.errors < env.caps.consecutiveErrors ==> Counted(env, t)
  {
    hide Counts, CountsToTheEnd, IsHeard;
    OneCounted(env, s, t, Marks(env, s.requestSeq - 1), false);
  }

  lemma CallsCount(env: Env, s: Session, calls: seq<ToolCall>)
    requires s.requestSeq > 0 && IsHeard(env.adapter(s.requestSeq)) && calls != []
    requires env.adapter(s.requestSeq).response.calls == calls
    requires Counts(env, s, Marks(env, s.requestSeq - 1)) && !s.ended
    requires s.executed == CallsMade(env, s.requestSeq - 1)
    ensures var (t, reason) := Batch(env, s, calls);
            if reason.None? then Counted(env, t) else EndsCounted(env, t, reason.value)
  {
    hide Counts, CountsToTheEnd, Batch, Went, IsHeard;
    BatchCounts(env, s, calls, Marks(env, s.requestSeq - 1));
    LoopBounds.BatchSendsNothing(env, s, calls);
    BatchProgress(env, s, calls);
    BatchStaysBelow(env, |s.log|, s, calls);
  }

  lemma TurnCounts(env: Env, s: Session)
    requires Counted(env, s)
    ensures var (t, reason) := TakeTurn(env, s);
            if reason.None? then Counted(env, t) else EndsCounted(env, t, reason.value)
  {
    hide Counts, EndsCounted, Counted, AskModel, Batch, Carry, IsHeard, Marks, CallsMade;
    assert Counts(env, s, Marks(env, s.requestSeq)) && s.executed == CallsMade(env, s.requestSeq) && !s.ended by {
      CountedIs(env, s);
    }
    AskModelCountsNothing(env, s, 0);
    var (s1, response) := AskModel(env, s, 0);
    SameCount(env, s, s1, Marks(env, s.requestSeq));
    if response.None? {
      QuietEnd(env, s1, Errors);
    } else {
      var r := response.value;
      var s2 := Listen(s1, r);
      SameCount(env, s, s2, Marks(env, s.requestSeq));
      CarrySetsTheWake(env, s2, r.calls);
      SameCount(env, s, Carry(env, s2, r.calls), Marks(env, s.requestSeq));
      QuietEnd(env, Carry(env, s2, r.calls), TokenCap);
      if r.calls == [] {
        var s3 := s2.(errors := s2.errors + 1);
        TextCounts(env, s2, s3);
        TextCounts(env, s2, s3.(messages := s3.messages + [UserMessage(env.continuation)]));
      } else {
        CallsCount(env, s2, r.calls);
      }
    }
  }

  lemma CountedIs(env: Env, s: Session)
    requires Counted(env, s)
    ensures Counts(env, s, Marks(env, s.requestSeq)) && s.executed == CallsMade(env, s.requestSeq) && !s.ended
  {
  }

  lemma {:induction false} TurnsCount(env: Env, s: Session)
    requires Counted(env, s)
    ensures EndsCounted(env, Turns(env, s).0, Turns(env, s).1)
    decreases AtLeastZero(env.caps.sessionTools - s.executed), AtLeastZero(env.caps.consecutiveErrors - s.errors)
  {
    hide Counted, EndsCounted, TakeTurn;
    TurnProgress(env, s);
    TurnCounts(env, s);
    if TakeTurn(env, s).1.None? {
      TurnsCount(env, TakeTurn(env, s).0);
    }
  }

  lemma {:induction false} InjectionsCountNothing(env: Env, s: Session, injections: seq<Injection>)
    ensures InjectAll(env, s, injections).errors == s.errors
  {
    if injections != [] {
      InjectionsCountNothing(env, s, injections[..|injections| - 1]);
    }
  }

  // The errors of a session are counted from the last executed call that went well: each
  // executed call that did not, and each heard answer without calls, is one more.  The
  // session ends for them exactly when one brings the count to the cap, which is then the
  // last thing that happens; the only other way to end for errors is a call given up.
  lemma ErrorsEndTheSession(env: Env, log: Telemetry.Log, usd: real, tokens: int)
    ensures var (s, reason) := WholeSession(env, log, usd, tokens);
            && s.requestSeq > 0
            && var marks := Marks(env, s.requestSeq - 1) + LastMarks(env, s, reason);
               && s.errors == ErrorsAtEnd(marks)
               && (forall k :: 0 <= k < |marks| ==> !ReachesTheCap(env, marks[..k]))
               && (ReachesTheCap(env, marks) <==> reason == Errors && IsHeard(env.adapter(s.requestSeq)))
  {
    hide Turns, InjectAll, ReachesTheCap, ErrorsAtEnd, LastMarks, Marks, IsHeard;
    var s := Begin(env, log, usd, tokens);
    InjectionsWrite(env, s, env.injections);
    InjectionsCountNothing(env, s, env.injections);
    NothingCounted(env, InjectAll(env, s, env.injections));
    TurnsCount(env, InjectAll(env, s, env.injections));
    var (t, reason) := WholeSession(env, log, usd, tokens);
    var marks := Marks(env, t.requestSeq - 1) + LastMarks(env, t, reason);
    forall k | 0 <= k < |marks|
      ensures !ReachesTheCap(env, marks[..k])
    {
      assert marks[..|marks| - 1][..k] == marks[..k];
    }
  }

  lemma NothingCounted(env: Env, s: Session)
    requires s.requestSeq == 0 && s.errors == 0 && s.executed == 0 && !s.ended
    ensures Counted(env, s)
  {
  }
}
