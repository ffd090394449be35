/**
 The rows a session writes: whatever the adapter and the tools do, they extend a
 well-formed log to a well-formed log, the loop's counters are what the folds compute
 from it, and the journal material is what recovery would rebuild from it.
 */
module LoopAccounting {
  import opened Options
  import opened Conversation
  import opened Telemetry
  import opened Observer
  import opened AgentLoop
  import Governor
  import Repetition

  // --- the journal, rebuilt from the rows (runner.py) --------------------------------------

  predicate ModelRow(e: Event, session: nat) {
    e.ToolRow? && e.session == session && e.byModel
  }

  function RebuiltTools(log: Log, session: nat): multiset<string> {
    if log == [] then multiset{} else
      var e := log[|log| - 1];
      RebuiltTools(log[..|log| - 1], session) + if ModelRow(e, session) then multiset{e.tool} else multiset{}
  }

  function SkippedTools(log: Log, session: nat): multiset<string> {
    if log == [] then multiset{} else
      var e := log[|log| - 1];
      SkippedTools(log[..|log| - 1], session)
      + if ModelRow(e, session) && e.skipped then multiset{e.tool} else multiset{}
  }

  function RebuiltTxs(log: Log, session: nat): seq<string> {
    if log == [] then [] else
      var e := log[|log| - 1];
      var before := RebuiltTxs(log[..|log| - 1], session);
      if ModelRow(e, session) then Collect(before, e.hashes) else before
  }

  method CollectRow(known: seq<string>, hashes: seq<string>) returns (all: seq<string>)
    ensures all == Collect(known, hashes)
  {
    all := known;
    for j := 0 to |hashes|
      invariant all == Collect(known, hashes[..j])
    {
      assert hashes[..j + 1][..j] == hashes[..j];
      if hashes[j] !in all {
        all := all + [hashes[j]];
      }
    }
    assert hashes[..|hashes|] == hashes;
  }

  method RebuildJournal(events: Log, session: nat) returns (tools: multiset<string>, txHashes: seq<string>)
    ensures tools == RebuiltTools(events, session) && txHashes == RebuiltTxs(events, session)
  {
    tools, txHashes := multiset{}, [];
    for i := 0 to |events|
      invariant tools == RebuiltTools(events[..i], session)
      invariant txHashes == RebuiltTxs(events[..i], session)
    {
      assert events[..i + 1][..i] == events[..i];
      var row := events[i];
      if !row.ToolRow? || row.session != session || !row.byModel {
        continue;
      }
      tools := tools + multiset{row.tool};
      txHashes := CollectRow(txHashes, row.hashes);
    }
    assert events[..|events|] == events;
  }

  lemma {:induction false} NoSkipsMeansNone(log: Log, session: nat)
    ensures SkippedTools(log, session) == multiset{}
            <==> forall i :: 0 <= i < |log| && ModelRow(log[i], session) ==> !log[i].skipped
  {
    if log != [] {
      var n := |log| - 1;
      NoSkipsMeansNone(log[..n], session);
      assert forall i :: 0 <= i < n ==> log[..n][i] == log[i];
      if ModelRow(log[n], session) && log[n].skipped {
        assert log[n].tool in SkippedTools(log, session);
      } else {
        assert SkippedTools(log, session) == SkippedTools(log[..n], session);
      }
    }
  }

  lemma {:induction false} NothingToRebuild(log: Log, session: nat)
    requires forall i :: 0 <= i < |log| ==> log[i].session != session
    ensures RebuiltTools(log, session) == SkippedTools(log, session) == multiset{} && RebuiltTxs(log, session) == []
  {
    if log != [] {
      NothingToRebuild(log[..|log| - 1], session);
    }
  }

  // --- what every step of the loop keeps ---------------------------------------------------

  predicate CostsNonNegative(log: Log) {
    forall k :: 0 <= k < |log| && log[k].LlmCall? ==> log[k].cost >= 0.0
  }

  ghost predicate FairlyPriced(env: Env) {
    && Governor.NonNegative(env.prices)
    && forall n :: env.adapter(n).Answered? ==> Governor.Consistent(env.adapter(n).response.usage)
  }

  // The log stands inside the session and agrees with the loop's own counters.
  ghost predicate InStep(env: Env, budget: real, s: Session) {
    && WellFormed(budget, s.log)
    && s.callSeq == s.toolRows
    && Observe(budget, s.log).value.(counter := 0, calls := 0, usdAtStart := 0.0)
       == Seen(0, Some(env.session), s.requestSeq, false, s.cumulativeUsd, s.cumulativeTokens, 0, 0.0, LoopTotals(s),
               false)
  }

  ghost predicate Journaled(env: Env, fair: bool, s: Session) {
    && RebuiltTools(s.log, env.session) == s.journalTools + SkippedTools(s.log, env.session)
    && RebuiltTxs(s.log, env.session) == s.journalTxs
    && (fair ==> CostsNonNegative(s.log))
  }

  ghost predicate Kept(env: Env, budget: real, fair: bool, s: Session) {
    InStep(env, budget, s) && Journaled(env, fair, s)
  }

  // The fields a step may change without touching the log.
  predicate SameBooks(s: Session, t: Session) {
    && s.log == t.log && s.requestSeq == t.requestSeq && s.callSeq == t.callSeq && LoopTotals(s) == LoopTotals(t)
    && s.cumulativeUsd == t.cumulativeUsd && s.cumulativeTokens == t.cumulativeTokens
    && s.journalTools == t.journalTools && s.journalTxs == t.journalTxs
  }

  lemma SameBooksKeep(env: Env, budget: real, fair: bool, s: Session, t: Session)
    requires Kept(env, budget, fair, s) && SameBooks(s, t)
    ensures Kept(env, budget, fair, t)
  {
  }

  // A row that is not one of the model's adds nothing to the journal.
  lemma OtherRow(env: Env, fair: bool, s: Session, e: Event)
    requires Journaled(env, fair, s) && !ModelRow(e, env.session)
    requires e.LlmCall? && fair ==> e.cost >= 0.0
    ensures Journaled(env, fair, s.(log := s.log + [e]))
  {
    assert (s.log + [e])[..|s.log|] == s.log;
  }

  lemma SameJournal(env: Env, fair: bool, s: Session, t: Session)
    requires Journaled(env, fair, s)
    requires s.log == t.log && s.journalTools == t.journalTools && s.journalTxs == t.journalTxs
    ensures Journaled(env, fair, t)
  {
  }

  lemma AttemptIsInStep(env: Env, budget: real, s: Session, tokens: nat, cost: real)
    requires InStep(env, budget, s)
    ensures InStep(env, budget, Billed(env, Request(env, s), tokens, cost))
  {
    var s1 := Request(env, s);
    ObserveOne(budget, s.log, LlmRequest(env.session, s1.requestSeq));
    ObserveOne(budget, s1.log, LlmCall(env.session, s1.requestSeq, tokens, cost,
                                       s.cumulativeUsd + cost, s.cumulativeTokens + tokens, false));
  }

  lemma AttemptIsJournaled(env: Env, fair: bool, s: Session, tokens: nat, cost: real)
    requires Journaled(env, fair, s) && (fair ==> cost >= 0.0)
    ensures Journaled(env, fair, Billed(env, Request(env, s), tokens, cost))
  {
    hide Journaled;
    var s1 := Request(env, s);
    var ahead := LlmRequest(env.session, s1.requestSeq);
    var done := LlmCall(env.session, s1.requestSeq, tokens, cost, s.cumulativeUsd + cost, s.cumulativeTokens + tokens,
                        false);
    OtherRow(env, fair, s, ahead);
    SameJournal(env, fair, s.(log := s.log + [ahead]), s1);
    OtherRow(env, fair, s1, done);
    SameJournal(env, fair, s1.(log := s1.log + [done]), Billed(env, s1, tokens, cost));
  }

  // One attempt: the write-ahead row, then the row of its outcome.
  lemma AttemptKeeps(env: Env, budget: real, fair: bool, s: Session, tokens: nat, cost: real)
    requires Kept(env, budget, fair, s) && (fair ==> cost >= 0.0)
    ensures Kept(env, budget, fair, Billed(env, Request(env, s), tokens, cost))
  {
    AttemptIsInStep(env, budget, s, tokens, cost);
    AttemptIsJournaled(env, fair, s, tokens, cost);
  }

  lemma AttemptIsKept(env: Env, budget: real, fair: bool, s: Session)
    requires Kept(env, budget, fair, s) && (fair ==> FairlyPriced(env))
    ensures Kept(env, budget, fair, Attempt(env, s))
  {
    hide Kept;
    var answer := env.adapter(s.requestSeq + 1);
    if IsUseful(answer) {
      var u := answer.response.usage;
      if fair {
        Governor.CostIsNonNegative(u, env.prices);
      }
      AttemptKeeps(env, budget, fair, s, u.input + u.output, Governor.CostUsd(u, env.prices));
    } else {
      AttemptKeeps(env, budget, fair, s, 0, 0.0);
    }
  }

  lemma {:induction false} AskModelIsKept(env: Env, budget: real, fair: bool, s: Session, attempt: nat)
    requires Kept(env, budget, fair, s) && (fair ==> FairlyPriced(env))
    ensures Kept(env, budget, fair, AskModel(env, s, attempt).0)
    decreases env.caps.retries - attempt
  {
    hide Kept;
    AttemptIsKept(env, budget, fair, s);
    var answer := env.adapter(s.requestSeq + 1);
    if !IsUseful(answer) && !GivesUp(env, answer, attempt) {
      AskModelIsKept(env, budget, fair, Attempt(env, s), attempt + 1);
    }
  }

  lemma RowIsInStep(env: Env, budget: real, s: Session, call: ToolCall, byModel: bool, ok: bool, skipped: bool,
                    hashes: seq<string>)
    requires InStep(env, budget, s)
    ensures InStep(env, budget, Row(env, s, call, byModel, ok, skipped, hashes))
  {
    ObserveOne(budget, s.log, ToolRow(env.session, Some(s.callSeq + 1), call.name, byModel, ok, skipped, hashes));
  }

  lemma InjectIsKept(env: Env, budget: real, fair: bool, s: Session, i: Injection)
    requires Kept(env, budget, fair, s)
    ensures Kept(env, budget, fair, Inject(env, s, i))
  {
    RowIsInStep(env, budget, s, i.call, false, i.ok, false, []);
    OtherRow(env, fair, s, ToolRow(env.session, Some(s.callSeq + 1), i.call.name, false, i.ok, false, []));
  }

  lemma SkipIsKept(env: Env, budget: real, fair: bool, s: Session, call: ToolCall)
    requires Kept(env, budget, fair, s)
    ensures Kept(env, budget, fair, Skip(env, s, call))
  {
    RowIsInStep(env, budget, s, call, true, false, true, []);
    assert Skip(env, s, call).log[..|s.log|] == s.log;
  }

  lemma DispatchIsKept(env: Env, budget: real, fair: bool, s: Session, call: ToolCall, o: Outcome)
    requires Kept(env, budget, fair, s)
    ensures Kept(env, budget, fair, Dispatched(env, s, call, o))
  {
    if o.wrote {
      ObserveOne(budget, s.log, WorkspaceRow(env.session));
      OtherRow(env, fair, s, WorkspaceRow(env.session));
    } else {
      assert s.log + [] == s.log;
    }
  }

  lemma SettleIsKept(env: Env, budget: real, fair: bool, s: Session, call: ToolCall, o: Outcome)
    requires Kept(env, budget, fair, s)
    ensures Kept(env, budget, fair, Settled(env, s, call, o))
  {
    RowIsInStep(env, budget, s, call, true, o.ok, false, HashesOf(o));
    assert Settled(env, s, call, o).log[..|s.log|] == s.log;
  }

  lemma {:induction false} BatchIsKept(env: Env, budget: real, fair: bool, s: Session, calls: seq<ToolCall>)
    requires Kept(env, budget, fair, s)
    ensures Kept(env, budget, fair, Batch(env, s, calls).0)
    decreases |calls|
  {
    hide Kept, Judge;
    if calls != [] {
      if s.ended {
        SkipIsKept(env, budget, fair, s, calls[0]);
        BatchIsKept(env, budget, fair, Skip(env, s, calls[0]), calls[1..]);
      } else {
        var o := env.tools(s.executed);
        DispatchIsKept(env, budget, fair, s, calls[0], o);
        SettleIsKept(env, budget, fair, Dispatched(env, s, calls[0], o), calls[0], o);
        var s1 := Execute(env, s, calls[0]);
        var (s2, reason) := Judge(env, s1, calls[0], o, calls[1..]);
        JudgeOnlyRecords(env, s1, calls[0], o, calls[1..]);
        SameBooksKeep(env, budget, fair, s1, s2);
        if reason.None? {
          BatchIsKept(env, budget, fair, s2, calls[1..]);
        }
      }
    }
  }

  lemma TurnIsKept(env: Env, budget: real, fair: bool, s: Session)
    requires Kept(env, budget, fair, s) && (fair ==> FairlyPriced(env))
    ensures Kept(env, budget, fair, TakeTurn(env, s).0)
  {
    hide Kept, AskModel, Batch;
    AskModelIsKept(env, budget, fair, s, 0);
    var (s1, response) := AskModel(env, s, 0);
    if response.Some? {
      var r := response.value;
      var s2 := Listen(s1, r);
      SameBooksKeep(env, budget, fair, s1, s2);
      CarrySetsTheWake(env, s2, r.calls);
      SameBooksKeep(env, budget, fair, s2, Carry(env, s2, r.calls));
      var s3 := s2.(errors := s2.errors + 1);
      SameBooksKeep(env, budget, fair, s2, s3);
      SameBooksKeep(env, budget, fair, s3, s3.(messages := s3.messages + [UserMessage(env.continuation)]));
      if r.calls != [] {
        BatchIsKept(env, budget, fair, s2, r.calls);
      }
    }
  }

  lemma {:induction false} TurnsAreKept(env: Env, budget: real, fair: bool, s: Session)
    requires Kept(env, budget, fair, s) && (fair ==> FairlyPriced(env))
    ensures Kept(env, budget, fair, Turns(env, s).0)
    decreases AtLeastZero(env.caps.sessionTools - s.executed), AtLeastZero(env.caps.consecutiveErrors - s.errors)
  {
    hide Kept, TakeTurn;
    TurnProgress(env, s);
    TurnIsKept(env, budget, fair, s);
    if TakeTurn(env, s).1.None? {
      TurnsAreKept(env, budget, fair, TakeTurn(env, s).0);
    }
  }

  lemma {:induction false} InjectionsAreKept(env: Env, budget: real, fair: bool, s: Session, injections: seq<Injection>)
    requires Kept(env, budget, fair, s)
    ensures Kept(env, budget, fair, InjectAll(env, s, injections))
  {
    hide Kept, Inject;
    if injections != [] {
      var n := |injections| - 1;
      InjectionsAreKept(env, budget, fair, s, injections[..n]);
      InjectIsKept(env, budget, fair, InjectAll(env, s, injections[..n]), injections[n]);
    }
  }

  // The log right after a session_start row.
  ghost predicate JustStarted(env: Env, budget: real, log: Log, usd: real, tokens: int) {
    && WellFormed(budget, log) && log != [] && log[|log| - 1].session == env.session
    && Observe(budget, log).value.(counter := 0, calls := 0, usdAtStart := 0.0)
       == Seen(0, Some(env.session), 0, false, usd, tokens, 0, 0.0, NO_TOTALS, false)
    && RebuiltTools(log, env.session) == SkippedTools(log, env.session) == multiset{}
    && RebuiltTxs(log, env.session) == []
  }

  // A whole session extends a well-formed log to a well-formed log, every request in
  // it paired, with the loop's result equal to what the folds compute.
  lemma SessionIsAccounted(env: Env, budget: real, log: Log, usd: real, tokens: int)
    requires JustStarted(env, budget, log, usd, tokens)
    ensures var s := WholeSession(env, log, usd, tokens).0;
            && WellFormed(budget, s.log)
            && Phantoms(s.log, env.session) == []
            && LoopTotals(s) == TotalsOf(s.log, env.session)
            && s.cumulativeUsd == Fold(s.log).cumulativeUsd && s.cumulativeTokens == Fold(s.log).cumulativeTokens
            && Observe(budget, s.log).value.open == Some(env.session)
            && !Observe(budget, s.log).value.pending && Observe(budget, s.log).value.totals == LoopTotals(s)
            && (FairlyPriced(env) && CostsNonNegative(log) ==> CostsNonNegative(s.log))
  {
    SessionIsKept(env, budget, FairlyPriced(env) && CostsNonNegative(log), log, usd, tokens);
    var s := WholeSession(env, log, usd, tokens).0;
    PhantomsOfLog(budget, s.log);
    FoldOfLog(budget, s.log);
    TotalsOfLastSession(budget, s.log);
  }

  lemma SessionIsKept(env: Env, budget: real, fair: bool, log: Log, usd: real, tokens: int)
    requires JustStarted(env, budget, log, usd, tokens) && (fair ==> FairlyPriced(env) && CostsNonNegative(log))
    ensures Kept(env, budget, fair, WholeSession(env, log, usd, tokens).0)
  {
    var s := Begin(env, log, usd, tokens);
    InjectionsAreKept(env, budget, fair, s, env.injections);
    TurnsAreKept(env, budget, fair, InjectAll(env, s, env.injections));
  }

  // The journal that recovery rebuilds from a session's rows names the same
  // transactions as the live one, and counts the same calls exactly when no intent was
  // skipped: the rebuild also counts the skipped rows.
  lemma RebuiltJournalAgrees(env: Env, budget: real, log: Log, usd: real, tokens: int)
    requires JustStarted(env, budget, log, usd, tokens)
    ensures var s := WholeSession(env, log, usd, tokens).0;
            && RebuiltTxs(s.log, env.session) == s.journalTxs
            && (RebuiltTools(s.log, env.session) == s.journalTools
                <==> forall i :: 0 <= i < |s.log| && ModelRow(s.log[i], env.session) ==> !s.log[i].skipped)
  {
    SessionIsKept(env, budget, false, log, usd, tokens);
    var s := WholeSession(env, log, usd, tokens).0;
    NoSkipsMeansNone(s.log, env.session);
    var skipped := SkippedTools(s.log, env.session);
    assert s.journalTools + skipped == s.journalTools <==> skipped == multiset{} by {
      if s.journalTools + skipped == s.journalTools {
        assert |s.journalTools + skipped| == |s.journalTools| + |skipped|;
      }
    }
  }

  // --- a session whose rebuilt journal differs ----------------------------------------------

  // One answer that ends the session and asks for one call more.
  predicate EndsThenAsks(env: Env, r: Response, end: ToolCall, more: ToolCall) {
    && env.injections == [] && env.adapter(1) == Answered(r) && r.calls == [end, more] && end.name == END_SESSION
    && env.tools(0).ok && r.usage.input + r.usage.output < env.caps.sessionTokens
  }

  lemma SecondCallIsSkipped(env: Env, log: Log, usd: real, tokens: int, r: Response, end: ToolCall, more: ToolCall)
    requires EndsThenAsks(env, r, end, more)
    ensures var s := WholeSession(env, log, usd, tokens).0;
            s.log != [] && ModelRow(s.log[|s.log| - 1], env.session) && s.log[|s.log| - 1].skipped
  {
    var s0 := Begin(env, log, usd, tokens);
    var s1 := Listen(Attempt(env, s0), r);
    var s2 := Execute(env, s1, end);
    var s3 := Skip(env, s2, more);
    assert !s1.ended && s2.ended;
    assert Judge(env, s2, end, env.tools(0), [more]) == (s2, None);
    assert r.calls[1..] == [more] && [more][1..] == [];
    assert Batch(env, s3, []) == (s3, Some(ByAgent));
    assert Batch(env, s2, [more]) == (s3, Some(ByAgent));
    assert Batch(env, s1, r.calls) == (s3, Some(ByAgent));
    assert AskModel(env, s0, 0) == (Attempt(env, s0), Some(r));
    assert TakeTurn(env, s0) == (s3, Some(ByAgent));
  }

  // The rebuilt journal of such a session counts a call that the live one does not.
  lemma SkippedCallIsCounted(env: Env, budget: real, log: Log, usd: real, tokens: int, r: Response, end: ToolCall,
                             more: ToolCall)
    requires JustStarted(env, budget, log, usd, tokens) && EndsThenAsks(env, r, end, more)
    ensures var s := WholeSession(env, log, usd, tokens).0;
            RebuiltTools(s.log, env.session) != s.journalTools
  {
    hide WholeSession, JustStarted, RebuiltTools, RebuiltTxs;
    SecondCallIsSkipped(env, log, usd, tokens, r, end, more);
    RebuiltJournalAgrees(env, budget, log, usd, tokens);
  }

  // There are such sessions.
  lemma SomeSessionSkips() returns (env: Env, log: Log, r: Response, end: ToolCall, more: ToolCall)
    ensures JustStarted(env, 1.0, log, 0.0, 0) && EndsThenAsks(env, r, end, more)
  {
    end, more := ToolCall("1", END_SESSION, ""), ToolCall("2", "move", "");
    r := Response([], [end, more], Governor.Usage(1, 1, 0, 0), None);
    var answer, outcome := Answered(r), Outcome("", true, None, [], false, false);
    env := Env(1, Caps(10, 1, 1, 0, Repetition.Limits(1, 1, 1, 1), 0, 0), Governor.Prices(0.0, 0.0, None, None), "", "",
               [], _ => answer, _ => outcome, _ => None, _ => "");
    log := [SessionStart(1, 0)];
    assert log[..0] == [];
  }
}
