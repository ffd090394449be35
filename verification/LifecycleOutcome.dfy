/**
 What one whole invocation writes, row by row, and what its outcome says of it.
 */
module LifecycleOutcome {
  import opened Options
  import opened Telemetry
  import opened Observer
  import opened Recovery
  import opened Lifecycle
  import opened LifecycleSafety
  import opened LifecycleBoundary
  import AgentLoop
  import LifecycleCalls

  function Last(effects: seq<Effect>): Option<Event> {
    if effects != [] && effects[|effects| - 1].Emit? then Some(effects[|effects| - 1].event) else None
  }

  // --- the outcome --------------------------------------------------------------------------------

  // The invocation comes as far as the boundary, and the run goes on.
  ghost predicate IsLetIn(config: Config, inputs: Inputs, w: World) {
    && !inputs.lockHeld && IsDue(inputs, w.log) && !HasEnded(w.log) && inputs.kind != EndRun
    && Spend(w.log) < config.budget && !TimeIsUp(config, w.log, inputs.now)
  }

  lemma IsLetInExactly(config: Config, inputs: Inputs, w: World)
    ensures IsLetIn(config, inputs, w)
            <==> && !inputs.lockHeld && Due(inputs, Fold(w.log)) && !Fold(w.log).complete && inputs.kind != EndRun
                 && Stop(config, inputs, Fold(w.log)).None?
  {
    hide Fold, Spend, Due, Stop, TimeIsUp, HasEnded, IsDue;
    DueIsFolded(inputs, w.log);
    EndIsFolded(w.log);
    StopIsFolded(config, inputs, w.log);
  }

  // A session is served exactly when the invocation is let in, has its prompts and finds its
  // harness.
  lemma SessionIsServedExactly(config: Config, inputs: Inputs, w: World)
    ensures LifecycleCalls.RunsASession(config, inputs, w)
            <==> IsLetIn(config, inputs, w) && inputs.promptsPresent && inputs.harness == Serves
  {
    hide Fold, Due, Stop, IsLetIn;
    IsLetInExactly(config, inputs, w);
  }

  // The outcomes of an invocation that is turned away at the door.
  lemma TurnedAway(config: Config, inputs: Inputs, w: World)
    ensures Result(config, inputs, w) == LockHeld <==> inputs.lockHeld
    ensures Result(config, inputs, w) == NotDue <==> !inputs.lockHeld && !IsDue(inputs, w.log)
    ensures Result(config, inputs, w) == AlreadyComplete
            <==> !inputs.lockHeld && IsDue(inputs, w.log) && HasEnded(w.log)
    ensures Result(config, inputs, w) == LockHeld || Result(config, inputs, w) == NotDue ==>
              Invocation(config, inputs, w) == []
    ensures Result(config, inputs, w) == AlreadyComplete && WellFormed(config.budget, w.log) ==>
              Invocation(config, inputs, w) == []
  {
    hide Fold, Due, Stop, HasEnded, IsDue, RecoveryRows, Observe;
    DueIsFolded(inputs, w.log);
    EndIsFolded(w.log);
    if WellFormed(config.budget, w.log) && Fold(w.log).complete {
      FoldOfLog(config.budget, w.log);
      CompleteIsClosed(config.budget, w.log);
      CrashedIsOpen(config.budget, w.log);
    }
  }

  // The outcomes of an invocation that is let in, by the last thing it does.
  lemma OutcomeIsTheLastEffect(config: Config, inputs: Inputs, w: World)
    requires WellFormed(config.budget, w.log)
    ensures var program, n := Invocation(config, inputs, w), Fold(w.log).counter + 1;
            var result := Result(config, inputs, w);
            && (result == RunCompleted <==> Last(program).Some? && Last(program).value.RunComplete?)
            && (result == Refused <==> Last(program).Some? && Last(program).value.SessionRefused?)
            && (result == SessionRan <==> JournalEntry(n) in program)
            && (result == SessionRan || result == SessionAborted
                <==> Last(program).Some? && Last(program).value.ScheduleNext?)
            && (result == MissingPrompts <==> IsLetIn(config, inputs, w) && !inputs.promptsPresent)
            && (result == MissingPrompts ==> program == RecoveryEffects(w))
            && (result == Refused ==> inputs.harness == PairingRefused)
            && (result == SessionAborted ==> inputs.harness == SpawnFails)
            && (result == SessionRan ==> inputs.harness == Serves)
  {
    hide Fold, Due, Stop, Observe, Invocation, RecoveryEffects, MainEffects, TimeIsUp, IsLetIn;
    IsLetInExactly(config, inputs, w);
    NewEntryIsOfTheSession(config, inputs, w);
    ProgramEnds(config, inputs, w);
    var state, log := Fold(w.log), w.log + RecoveryRows(w.log);
    var main := MainEffects(config, inputs, state, log);
    MainIs(config, inputs, state, log);
  }

  // What the part after recovery comes to.
  lemma MainIs(config: Config, inputs: Inputs, state: RunState, log: Log)
    ensures var main, n := MainEffects(config, inputs, state, log), state.counter + 1;
            var stops := inputs.kind == EndRun || Stop(config, inputs, state).Some?;
            && (stops ==> Last(main).Some? && Last(main).value.RunComplete? && JournalEntry(n) !in main)
            && (!stops && !inputs.promptsPresent ==> main == [])
            && (!stops && inputs.promptsPresent ==>
                  match inputs.harness
                  case PairingRefused => main == [Emit(SessionRefused(state.counter))]
                  case SpawnFails =>
                    Last(main).Some? && Last(main).value.ScheduleNext? && JournalEntry(n) !in main
                  case Serves => Last(main).Some? && Last(main).value.ScheduleNext? && JournalEntry(n) in main)
  {
    hide Ran, OpeningRows, ClosingRows, EndOfRunRows, Stop, CountCalls, StopText;
    if inputs.kind != EndRun && Stop(config, inputs, state).None? && inputs.promptsPresent && inputs.harness == Serves {
      RanExtends(config, inputs, state, log);
    }
  }

  // Recovery ends with the end of a session or its entry, and writes no entry of a new one.
  lemma NewEntryIsOfTheSession(config: Config, inputs: Inputs, w: World)
    requires WellFormed(config.budget, w.log)
    ensures var recovery := RecoveryEffects(w);
            && JournalEntry(Fold(w.log).counter + 1) !in recovery
            && (Last(recovery).Some? ==> Last(recovery).value.SessionEnd?)
  {
    hide Fold, Observe, RecoveryRows;
    FoldOfLog(config.budget, w.log);
    CrashedIsOpen(config.budget, w.log);
    RecoveryRowsAre(w.log);
  }

  lemma ProgramEnds(config: Config, inputs: Inputs, w: World)
    requires WellFormed(config.budget, w.log)
    ensures var program, n := Invocation(config, inputs, w), Fold(w.log).counter + 1;
            var main := MainEffects(config, inputs, Fold(w.log), w.log + RecoveryRows(w.log));
            if inputs.lockHeld || !Due(inputs, Fold(w.log)) || Fold(w.log).complete then program == []
            else && program == RecoveryEffects(w) + main
                 && (main != [] ==> Last(program) == Last(main))
                 && (main == [] ==> Last(program).Some? ==> Last(program).value.SessionEnd?)
                 && (JournalEntry(n) in program <==> JournalEntry(n) in main)
  {
    hide Fold, Observe, RecoveryEffects, MainEffects, Due, RecoveryRows;
    NewEntryIsOfTheSession(config, inputs, w);
    if Fold(w.log).complete {
      TurnedAway(config, inputs, w);
    }
    var main := MainEffects(config, inputs, Fold(w.log), w.log + RecoveryRows(w.log));
    assert RecoveryEffects(w) + [] == RecoveryEffects(w);
  }

  // --- the rows of a served session --------------------------------------------------------------

  // A served session opens with its start at the moment of the invocation, the state of the
  // shell and the receipts of the keeper, where there are such; then come the loop's rows.
  lemma ServedSessionOpens(config: Config, inputs: Inputs, w: World)
    requires LifecycleCalls.RunsASession(config, inputs, w)
    ensures var log := LifecycleCalls.SessionRun(config, inputs, w).0.log;
            var n, at := Fold(w.log).counter + 1, |w.log + RecoveryRows(w.log)|;
            var shell, keeper := if config.shell then 1 else 0, if config.keeper then |inputs.receipts| else 0;
            && at + 1 + shell + keeper <= |log| && log[at] == SessionStart(n, inputs.now)
            && (config.shell ==> log[at + 1] == ShellState(n))
            && (forall k :: 0 <= k < keeper ==> log[at + 1 + shell + k] == KeeperRow(n, inputs.receipts[k]))
            && forall i :: at + 1 + shell + keeper <= i < |log| ==> AgentLoop.IsLoopRow(log[i], n)
  {
    hide Ran, Fold, RecoveryRows, AgentLoop.IsLoopRow, OpeningRows;
    RanExtends(config, inputs, Fold(w.log), w.log + RecoveryRows(w.log));
    OpeningIsWritten(config, inputs, Fold(w.log).counter + 1);
    var log := LifecycleCalls.SessionRun(config, inputs, w).0.log;
    PartOf(w.log + RecoveryRows(w.log), OpeningRows(config, inputs, Fold(w.log).counter + 1), log);
  }

  lemma PartOf(before: Log, rows: Log, log: Log)
    requires before + rows <= log
    ensures forall i :: 0 <= i < |rows| ==> log[|before| + i] == rows[i]
  {
    forall i | 0 <= i < |rows|
      ensures log[|before| + i] == rows[i]
    {
      assert (before + rows)[|before| + i] == rows[i];
    }
  }

  // It closes with the state of the shell, its end, which says why it ended, and the
  // schedule.
  lemma ServedSessionCloses(config: Config, inputs: Inputs, w: World)
    requires LifecycleCalls.RunsASession(config, inputs, w)
    ensures var log := w.log + Rows(Invocation(config, inputs, w));
            var (s, reason) := LifecycleCalls.SessionRun(config, inputs, w);
            var n, shell := Fold(w.log).counter + 1, if config.shell then 1 else 0;
            && |log| == |s.log| + shell + 2 && s.log <= log
            && (config.shell ==> log[|s.log|] == ShellState(n))
            && var end, next := log[|log| - 2], log[|log| - 1];
               && end.SessionEnd? && end.session == n && end.totals == AgentLoop.LoopTotals(s)
               && (end.reason == "agent" <==> reason == AgentLoop.ByAgent)
               && (end.reason == "token_cap" <==> reason == AgentLoop.TokenCap)
               && (end.reason == "tool_cap" <==> reason == AgentLoop.ToolCap)
               && (end.reason == "errors" <==> reason == AgentLoop.Errors)
               && (end.reason == "repetition" <==> reason == AgentLoop.RepetitionTripped)
               && next.ScheduleNext? && next.session == n
  {
    hide Ran, Invocation, Rows, Fold, RecoveryRows, ReasonText;
    LifecycleCalls.LogOfRun(config, inputs, w);
    ReasonsAreTold(LifecycleCalls.SessionRun(config, inputs, w).1);
  }

  lemma ReasonsAreTold(reason: AgentLoop.Reason)
    ensures ReasonText(reason) == "agent" <==> reason == AgentLoop.ByAgent
    ensures ReasonText(reason) == "token_cap" <==> reason == AgentLoop.TokenCap
    ensures ReasonText(reason) == "tool_cap" <==> reason == AgentLoop.ToolCap
    ensures ReasonText(reason) == "errors" <==> reason == AgentLoop.Errors
    ensures ReasonText(reason) == "repetition" <==> reason == AgentLoop.RepetitionTripped
  {
  }

  lemma OpeningIsWritten(config: Config, inputs: Inputs, n: nat)
    ensures var rows := OpeningRows(config, inputs, n);
            var shell, keeper := if config.shell then 1 else 0, if config.keeper then |inputs.receipts| else 0;
            && |rows| == 1 + shell + keeper && rows[0] == SessionStart(n, inputs.now)
            && (config.shell ==> rows[1] == ShellState(n))
            && forall k :: 0 <= k < keeper ==> rows[1 + shell + k] == KeeperRow(n, inputs.receipts[k])
  {
  }

  // --- the rows of the other ways to go -----------------------------------------------------------

  // A session whose harness does not come up has its start, an end for errors without any
  // call, and the default wake.
  lemma AbortedSessionIsWritten(config: Config, inputs: Inputs, w: World)
    requires IsLetIn(config, inputs, w) && inputs.promptsPresent && inputs.harness == SpawnFails
    ensures var n := Fold(w.log).counter + 1;
            Rows(Invocation(config, inputs, w))
            == RecoveryRows(w.log)
               + [SessionStart(n, inputs.now), SessionEnd(n, "errors", Totals(0, 0, 0.0, 0)),
                  ScheduleNext(n, inputs.later + config.wakeDefault)]
  {
    hide Fold, RecoveryRows, Rows, Invocation, Stop, Due, IsLetIn;
    IsLetInExactly(config, inputs, w);
    RowsOfInvocation(config, inputs, w);
    RowsOfEmits(AbortRows(config, inputs, Fold(w.log).counter + 1));
  }

  // A refused pairing leaves one row, under the number of the session before.
  lemma RefusalIsWritten(config: Config, inputs: Inputs, w: World)
    requires IsLetIn(config, inputs, w) && inputs.promptsPresent && inputs.harness == PairingRefused
    ensures Rows(Invocation(config, inputs, w)) == RecoveryRows(w.log) + [SessionRefused(Fold(w.log).counter)]
  {
    hide Fold, RecoveryRows, Rows, Invocation, Stop, Due, IsLetIn;
    IsLetInExactly(config, inputs, w);
    RowsOfInvocation(config, inputs, w);
    var refused := SessionRefused(Fold(w.log).counter);
    RowsOfEmits([refused]);
    assert Emits([refused]) == [Emit(refused)];
  }

  // The rows that end a run: they stop the keeper, revoke it, record its last receipts and
  // the state of the shell, where there are such, and say what the run came to.
  predicate ClosesTheRun(config: Config, inputs: Inputs, state: RunState, rows: Log) {
    var n, shell := state.counter, if config.shell then 1 else 0;
    var keeper := if config.keeper then 2 + |inputs.receipts| else 0;
    && |rows| == keeper + shell + 1
    && (config.keeper ==>
          && rows[0] == ToolRow(n, None, "keeper_stop_all", false, inputs.stopOk, false, [])
          && rows[1] == ToolRow(n, None, "keeper_revoke", false, inputs.revokeOk, false, [])
          && forall k :: 0 <= k < |inputs.receipts| ==> rows[2 + k] == KeeperRow(n, inputs.receipts[k]))
    && (config.shell ==> rows[keeper] == ShellState(n))
    && var end := rows[|rows| - 1];
       && end.RunComplete? && end.session == end.sessions == n
       && end.cumulativeUsd == state.cumulativeUsd && end.cumulativeTokens == state.cumulativeTokens
       && end.overspend == if state.cumulativeUsd > config.budget then state.cumulativeUsd - config.budget else 0.0
  }

  // After what recovery writes, such rows are all that the end of a run leaves.
  lemma EndOfRunIsWritten(config: Config, inputs: Inputs, w: World)
    requires Result(config, inputs, w) == RunCompleted
    ensures var rows, at := Rows(Invocation(config, inputs, w)), |RecoveryRows(w.log)|;
            RecoveryRows(w.log) <= rows && ClosesTheRun(config, inputs, Fold(w.log), rows[at..])
  {
    hide Fold, RecoveryRows, Rows, Invocation, Stop, Due, StopText, CompletionRows, ClosesTheRun;
    RowsOfInvocation(config, inputs, w);
    var log, stop := w.log + RecoveryRows(w.log), Stop(config, inputs, Fold(w.log));
    var reason := if inputs.kind == EndRun then "manual" else StopText(stop.value);
    var completion := CompletionRows(config, inputs, Fold(w.log), log, reason);
    RowsOfEmits(completion);
    CompletionIsWritten(config, inputs, Fold(w.log), log, reason);
    assert (RecoveryRows(w.log) + completion)[|RecoveryRows(w.log)|..] == completion;
  }

  lemma CompletionIsWritten(config: Config, inputs: Inputs, state: RunState, log: Log, reason: string)
    ensures ClosesTheRun(config, inputs, state, CompletionRows(config, inputs, state, log, reason))
  {
    hide CountCalls;
  }
}
