/**
 Every row that a session adds to its log, said of the row and its neighbours: what a model
 call is billed, what an injected, an executed and a skipped call say, and where a tool's
 own write stands.
 */
module LoopRows {
  import opened Options
  import opened Conversation
  import opened Telemetry
  import opened AgentLoop
  import opened LoopAnswers
  import Governor

  // --- what a row says -------------------------------------------------------------------------------

  // A request is followed by its outcome.
  predicate RequestIsRight(env: Env, log: Log, i: nat)
    requires i < |log| && log[i].LlmRequest?
  {
    log[i].session == env.session && i + 1 < |log| && log[i + 1].LlmCall? && log[i + 1].seqNo == log[i].seqNo
  }

  // The outcome of a request comes right after it: an answer that was heard is billed for
  // its tokens at the session's prices, any other for nothing.
  predicate CallIsRight(env: Env, log: Log, from: nat, i: nat)
    requires from <= i < |log| && log[i].LlmCall?
  {
    var answer := env.adapter(log[i].seqNo);
    && log[i].session == env.session && !log[i].phantom
    && i > from && log[i - 1] == LlmRequest(env.session, log[i].seqNo)
    && if IsHeard(answer)
       then && log[i].tokens == answer.response.usage.input + answer.response.usage.output
            && log[i].cost == Governor.CostUsd(answer.response.usage, env.prices)
       else log[i].tokens == 0 && log[i].cost == 0.0
  }

  // The call rows are numbered from 1: the injected calls, then the model's.
  predicate ToolIsRight(env: Env, log: Log, from: nat, i: nat)
    requires from <= i < |log| && log[i].ToolRow?
  {
    var row := log[i];
    var n := if row.callSeq.Some? then row.callSeq.value else 0;
    var wrote := i > from && log[i - 1].WorkspaceRow?;
    && row.session == env.session && n > 0
    && if n <= |env.injections|
       then
         var injected := env.injections[n - 1];
         && i == from + n - 1 && row.tool == injected.call.name && row.ok == injected.ok
         && !row.byModel && !row.skipped && row.hashes == []
       else if row.skipped
       then row.byModel && !row.ok && row.hashes == [] && !wrote
       else
         var o := env.tools(n - |env.injections| - 1);
         row.byModel && row.ok == o.ok && row.hashes == NonEmpty([o.txHash] + o.txs) && (wrote <==> o.wrote)
  }

  // A write of a tool is right before the row of its call.
  predicate WriteIsRight(env: Env, log: Log, i: nat)
    requires i < |log| && log[i].WorkspaceRow?
  {
    && log[i].session == env.session
    && i + 1 < |log| && log[i + 1].ToolRow? && log[i + 1].byModel && !log[i + 1].skipped
  }

  predicate RowIsRight(env: Env, log: Log, from: nat, i: nat)
    requires from <= i < |log|
  {
    match log[i]
    case LlmRequest(_, _) => RequestIsRight(env, log, i)
    case LlmCall(_, _, _, _, _, _, _) => CallIsRight(env, log, from, i)
    case ToolRow(_, _, _, _, _, _, _) => ToolIsRight(env, log, from, i)
    case WorkspaceRow(_) => WriteIsRight(env, log, i)
    case _ => false
  }

  ghost predicate RowsAreRight(env: Env, log: Log, from: nat) {
    from <= |log| && forall i :: from <= i < |log| ==> RowIsRight(env, log, from, i)
  }

  // --- the loop writes such rows ---------------------------------------------------------------------

  // `more` is right after a log whose rows are right: it needs to be checked alone.
  lemma RowsAppended(env: Env, log: Log, more: Log, from: nat)
    requires RowsAreRight(env, log, from)
    requires forall i :: |log| <= i < |log + more| ==> RowIsRight(env, log + more, from, i)
    ensures RowsAreRight(env, log + more, from)
  {
    hide CallIsRight, ToolIsRight;
    forall i | from <= i < |log|
      ensures RowIsRight(env, log + more, from, i)
    {
      assert RowIsRight(env, log, from, i);
      SameNeighbours(env, log, more, from, i);
    }
  }

  lemma SameNeighbours(env: Env, log: Log, more: Log, from: nat, i: nat)
    requires from <= i < |log| && RowIsRight(env, log, from, i)
    ensures RowIsRight(env, log + more, from, i)
  {
    assert (log + more)[i] == log[i];
    assert i > from ==> (log + more)[i - 1] == log[i - 1];
    assert i + 1 < |log| ==> (log + more)[i + 1] == log[i + 1];
  }

  // No write is left without the row of its call.
  lemma EndsSettled(env: Env, log: Log, from: nat)
    requires RowsAreRight(env, log, from) && |log| > from
    ensures !log[|log| - 1].WorkspaceRow?
  {
    assert RowIsRight(env, log, from, |log| - 1);
  }

  lemma AttemptRows(env: Env, s: Session, from: nat)
    requires RowsAreRight(env, s.log, from)
    ensures RowsAreRight(env, Attempt(env, s).log, from)
  {
    hide RowsAreRight, Governor.CostUsd;
    var answer := env.adapter(s.requestSeq + 1);
    HeardIsUseful(answer);
    StartsInBounds(env, s.log, from);
    var t := Attempt(env, s);
    var ahead, done := t.log[|s.log|], t.log[|s.log| + 1];
    assert t.log == s.log + [ahead, done];
    RowsAppended(env, s.log, [ahead, done], from);
  }

  lemma StartsInBounds(env: Env, log: Log, from: nat)
    requires RowsAreRight(env, log, from)
    ensures from <= |log|
  {
  }

  lemma {:induction false} AskModelRows(env: Env, s: Session, attempt: nat, from: nat)
    requires RowsAreRight(env, s.log, from)
    ensures RowsAreRight(env, AskModel(env, s, attempt).0.log, from)
    decreases env.caps.retries - attempt
  {
    hide RowsAreRight, Attempt;
    AttemptRows(env, s, from);
    var answer := env.adapter(s.requestSeq + 1);
    if !IsUseful(answer) && !GivesUp(env, answer, attempt) {
      AskModelRows(env, Attempt(env, s), attempt + 1, from);
    }
  }

  // What an executed call adds to the log.
  lemma ExecuteAdds(env: Env, s: Session, call: ToolCall)
    ensures var o := env.tools(s.executed);
            var row := ToolRow(env.session, Some(s.callSeq + 1), call.name, true, o.ok, false, HashesOf(o));
            var t := Execute(env, s, call);
            && t.log == s.log + (if o.wrote then [WorkspaceRow(env.session), row] else [row])
            && t.callSeq == s.callSeq + 1 && t.executed == s.executed + 1
  {
    hide HashesOf, Collect, SetWake;
    SetWakeAddsNothing(env, s, call);
  }

  lemma SetWakeAddsNothing(env: Env, s: Session, call: ToolCall)
    ensures var t := SetWake(env, s, call); t.log == s.log && t.callSeq == s.callSeq && t.executed == s.executed
  {
  }

  lemma ExecuteRows(env: Env, s: Session, call: ToolCall, from: nat)
    requires RowsAreRight(env, s.log, from) && s.callSeq == |env.injections| + s.executed
    ensures var t := Execute(env, s, call);
            RowsAreRight(env, t.log, from) && t.callSeq == |env.injections| + t.executed
  {
    hide RowsAreRight, Execute, NonEmpty;
    var o := env.tools(s.executed);
    var row := ToolRow(env.session, Some(s.callSeq + 1), call.name, true, o.ok, false, HashesOf(o));
    ExecuteAdds(env, s, call);
    StartsInBounds(env, s.log, from);
    if o.wrote {
      RowsAppended(env, s.log, [WorkspaceRow(env.session), row], from);
    } else {
      if |s.log| > from {
        EndsSettled(env, s.log, from);
      }
      RowsAppended(env, s.log, [row], from);
    }
  }

  lemma SkipRows(env: Env, s: Session, call: ToolCall, from: nat)
    requires RowsAreRight(env, s.log, from) && s.callSeq >= |env.injections|
    ensures RowsAreRight(env, Skip(env, s, call).log, from) && Skip(env, s, call).callSeq >= |env.injections|
  {
    hide RowsAreRight;
    StartsInBounds(env, s.log, from);
    if |s.log| > from {
      EndsSettled(env, s.log, from);
    }
    var row := ToolRow(env.session, Some(s.callSeq + 1), call.name, true, false, true, []);
    RowsAppended(env, s.log, [row], from);
  }

  lemma {:induction false} BatchRows(env: Env, s: Session, calls: seq<ToolCall>, from: nat)
    requires RowsAreRight(env, s.log, from) && s.callSeq >= |env.injections|
    requires s.ended || s.callSeq == |env.injections| + s.executed
    ensures var (t, reason) := Batch(env, s, calls);
            && RowsAreRight(env, t.log, from)
            && (reason.None? ==> t.callSeq == |env.injections| + t.executed)
    decreases |calls|
  {
    hide RowsAreRight, Execute, Judge, Skip;
    if calls != [] {
      if s.ended {
        SkipRows(env, s, calls[0], from);
        SkipAddsARow(env, s, calls[0]);
        BatchRows(env, Skip(env, s, calls[0]), calls[1..], from);
      } else {
        var s1 := Execute(env, s, calls[0]);
        ExecuteRows(env, s, calls[0], from);
        JudgeOnlyRecords(env, s1, calls[0], env.tools(s.executed), calls[1..]);
        var (s2, reason) := Judge(env, s1, calls[0], env.tools(s.executed), calls[1..]);
        if reason.None? {
          BatchRows(env, s2, calls[1..], from);
        }
      }
    }
  }

  lemma TurnRows(env: Env, s: Session, from: nat)
    requires RowsAreRight(env, s.log, from) && s.callSeq == |env.injections| + s.executed
    ensures var (t, reason) := TakeTurn(env, s);
            && RowsAreRight(env, t.log, from)
            && (reason.None? ==> t.callSeq == |env.injections| + t.executed)
  {
    hide RowsAreRight, AskModel, Batch, Carry;
    AskModelRows(env, s, 0, from);
    AskModelKeeps(env, s, 0);
    var (s1, response) := AskModel(env, s, 0);
    if response.Some? {
      CarrySetsTheWake(env, Listen(s1, response.value), response.value.calls);
      BatchRows(env, Listen(s1, response.value), response.value.calls, from);
    }
  }

  lemma {:induction false} TurnsRows(env: Env, s: Session, from: nat)
    requires RowsAreRight(env, s.log, from) && s.callSeq == |env.injections| + s.executed
    ensures RowsAreRight(env, Turns(env, s).0.log, from)
    decreases AtLeastZero(env.caps.sessionTools - s.executed), AtLeastZero(env.caps.consecutiveErrors - s.errors)
  {
    hide RowsAreRight, TakeTurn;
    TurnProgress(env, s);
    TurnRows(env, s, from);
    if TakeTurn(env, s).1.None? {
      TurnsRows(env, TakeTurn(env, s).0, from);
    }
  }

  lemma {:induction false} InjectionsRows(env: Env, s: Session, k: nat)
    requires k <= |env.injections| && s.callSeq == 0
    ensures var t := InjectAll(env, s, env.injections[..k]);
            && RowsAreRight(env, t.log, |s.log|) && |t.log| == |s.log| + k
            && t.callSeq == k && t.executed == s.executed
  {
    if k > 0 {
      hide RowsAreRight, ToolIsRight;
      assert env.injections[..k][..k - 1] == env.injections[..k - 1];
      InjectionsRows(env, s, k - 1);
      InjectedRow(env, InjectAll(env, s, env.injections[..k - 1]), |s.log|, k - 1);
    }
  }

  lemma InjectedRow(env: Env, s: Session, from: nat, k: nat)
    requires k < |env.injections| && s.callSeq == k && |s.log| == from + k && RowsAreRight(env, s.log, from)
    ensures RowsAreRight(env, Inject(env, s, env.injections[k]).log, from)
  {
    hide RowsAreRight;
    var i := env.injections[k];
    var row := ToolRow(env.session, Some(k + 1), i.call.name, false, i.ok, false, []);
    RowsAppended(env, s.log, [row], from);
  }

  // Every row that a session adds is right.
  lemma EveryRowIsRight(env: Env, log: Log, usd: real, tokens: int, i: nat)
    requires |log| <= i < |WholeSession(env, log, usd, tokens).0.log|
    ensures RowIsRight(env, WholeSession(env, log, usd, tokens).0.log, |log|, i)
  {
    hide Turns, InjectAll, RowIsRight;
    var s := Begin(env, log, usd, tokens);
    InjectionsRows(env, s, |env.injections|);
    assert env.injections[..|env.injections|] == env.injections;
    TurnsRows(env, InjectAll(env, s, env.injections), |log|);
  }
}
