/**
 When a run ends and when a session may start, said of the rows of the log: what was spent,
 how old the first session is, when the next one is due, and what an invocation reports.
 */
module LifecycleBoundary {
  import opened Telemetry
  import opened Observer
  import opened Recovery
  import opened Lifecycle
  import opened LifecycleSafety
  import AgentLoop

  // --- what a log says of the boundary ------------------------------------------------------------

  function Spend(log: Log): real {
    if log == [] then 0.0
    else Spend(log[..|log| - 1]) + if log[|log| - 1].LlmCall? then log[|log| - 1].cost else 0.0
  }

  predicate IsFirstStart(log: Log, i: int) {
    0 <= i < |log| && log[i].SessionStart? && forall k :: 0 <= k < i ==> !log[k].SessionStart?
  }

  predicate IsLastSchedule(log: Log, i: int) {
    0 <= i < |log| && log[i].ScheduleNext? && forall k :: i < k < |log| ==> !log[k].ScheduleNext?
  }

  ghost predicate HasEnded(log: Log) {
    exists i :: 0 <= i < |log| && log[i].RunComplete?
  }

  // The first session is at least `tMax` old.
  ghost predicate TimeIsUp(config: Config, log: Log, now: int) {
    exists i :: IsFirstStart(log, i) && now - log[i].ts >= config.tMax
  }

  // A scheduled invocation waits for the wake that was scheduled last.
  ghost predicate IsDue(inputs: Inputs, log: Log) {
    inputs.kind == Scheduled ==> forall i :: IsLastSchedule(log, i) ==> inputs.now >= log[i].wakeAt
  }

  // --- the folds find it ----------------------------------------------------------------------------

  lemma {:induction false} SpendIsFolded(log: Log)
    ensures Fold(log).cumulativeUsd == Spend(log)
  {
    if log != [] {
      SpendIsFolded(log[..|log| - 1]);
    }
  }

  lemma {:induction false} FirstStartIsFolded(log: Log)
    ensures Fold(log).firstSessionAt.None? ==> forall i :: 0 <= i < |log| ==> !log[i].SessionStart?
    ensures Fold(log).firstSessionAt.Some? ==>
              exists i :: IsFirstStart(log, i) && log[i].ts == Fold(log).firstSessionAt.value
  {
    if log != [] {
      var n := |log| - 1;
      FirstStartIsFolded(log[..n]);
      assert forall i :: 0 <= i < n ==> log[..n][i] == log[i];
      if Fold(log[..n]).firstSessionAt.Some? {
        var i :| IsFirstStart(log[..n], i) && log[..n][i].ts == Fold(log[..n]).firstSessionAt.value;
        assert IsFirstStart(log, i);
      } else if log[n].SessionStart? {
        assert IsFirstStart(log, n);
      }
    }
  }

  lemma {:induction false} LastScheduleIsFolded(log: Log)
    ensures Fold(log).nextWakeAt.None? ==> forall i :: 0 <= i < |log| ==> !log[i].ScheduleNext?
    ensures Fold(log).nextWakeAt.Some? ==>
              exists i :: IsLastSchedule(log, i) && log[i].wakeAt == Fold(log).nextWakeAt.value
  {
    if log != [] {
      var n := |log| - 1;
      LastScheduleIsFolded(log[..n]);
      assert forall i :: 0 <= i < n ==> log[..n][i] == log[i];
      if log[n].ScheduleNext? {
        assert IsLastSchedule(log, n);
      } else if Fold(log[..n]).nextWakeAt.Some? {
        var i :| IsLastSchedule(log[..n], i) && log[..n][i].wakeAt == Fold(log[..n]).nextWakeAt.value;
        assert IsLastSchedule(log, i);
      }
    }
  }

  lemma {:induction false} EndIsFolded(log: Log)
    ensures Fold(log).complete <==> HasEnded(log)
  {
    if log != [] {
      var n := |log| - 1;
      EndIsFolded(log[..n]);
      assert forall i :: 0 <= i < n ==> log[..n][i] == log[i];
      if HasEnded(log) && !log[n].RunComplete? {
        var i :| 0 <= i < |log| && log[i].RunComplete?;
        assert log[..n][i].RunComplete?;
      }
    }
  }

  lemma DueIsFolded(inputs: Inputs, log: Log)
    ensures Due(inputs, Fold(log)) <==> IsDue(inputs, log)
  {
    hide Fold;
    LastScheduleIsFolded(log);
    if Fold(log).nextWakeAt.Some? {
      var i :| IsLastSchedule(log, i) && log[i].wakeAt == Fold(log).nextWakeAt.value;
      assert forall k :: IsLastSchedule(log, k) ==> k == i;
    }
  }

  lemma StopIsFolded(config: Config, inputs: Inputs, log: Log)
    ensures Stop(config, inputs, Fold(log)).Some? <==> Spend(log) >= config.budget || TimeIsUp(config, log, inputs.now)
    ensures Stop(config, inputs, Fold(log)).Some? ==>
              (StopText(Stop(config, inputs, Fold(log)).value) == "budget" <==> Spend(log) >= config.budget)
    ensures Stop(config, inputs, Fold(log)).Some? ==>
              (StopText(Stop(config, inputs, Fold(log)).value) == "t_max" <==> Spend(log) < config.budget)
  {
    hide Fold, Spend;
    SpendIsFolded(log);
    FirstStartIsFolded(log);
    if Fold(log).firstSessionAt.Some? {
      var i :| IsFirstStart(log, i) && log[i].ts == Fold(log).firstSessionAt.value;
      assert forall k :: IsFirstStart(log, k) ==> k == i;
    }
  }

  // --- what an invocation writes ----------------------------------------------------------------------

  predicate StartOrEnd(e: Event) {
    e.SessionStart? || e.RunComplete?
  }

  lemma RowsOfInvocation(config: Config, inputs: Inputs, w: World)
    requires !inputs.lockHeld && Due(inputs, Fold(w.log)) && !Fold(w.log).complete
    ensures Rows(Invocation(config, inputs, w))
            == RecoveryRows(w.log)
               + Rows(MainEffects(config, inputs, Fold(w.log), w.log + RecoveryRows(w.log)))
  {
    hide Fold, Rows, RecoveryEffects, MainEffects, RecoveryRows;
    RowsOfRecovery(w);
    RowsConcat(RecoveryEffects(w), MainEffects(config, inputs, Fold(w.log), w.log + RecoveryRows(w.log)));
  }

  // The rows of a completion: one run_complete, the last, and no start.
  ghost predicate EndsTheRun(rows: Log, reason: string) {
    && rows != [] && rows[|rows| - 1].RunComplete? && rows[|rows| - 1].reason == reason
    && forall i :: 0 <= i < |rows| - 1 ==> !StartOrEnd(rows[i])
  }

  lemma CompletionEnds(config: Config, inputs: Inputs, state: RunState, log: Log, reason: string)
    ensures EndsTheRun(CompletionRows(config, inputs, state, log, reason), reason)
  {
    hide CountCalls;
  }

  // The rows of a session: at most one start, at the beginning, and no end of the run.
  ghost predicate StartsOnly(config: Config, rows: Log, now: int) {
    forall i :: 0 <= i < |rows| ==>
                  && !rows[i].RunComplete?
                  && (rows[i].SessionStart? ==> i == 0 && rows[i].ts == now)
  }

  lemma ServedStartsOnly(config: Config, inputs: Inputs, state: RunState, log: Log)
    requires inputs.promptsPresent && inputs.harness == Serves
    ensures StartsOnly(config, Rows(SessionEffects(config, inputs, state, log)), inputs.now)
  {
    hide Ran, Rows, SessionEffects, AgentLoop.Appends;
    SessionRowsAre(config, inputs, state, log);
    RanExtends(config, inputs, state, log);
    LoopStartsNothing(config, inputs, state, log);
  }

  lemma LoopStartsNothing(config: Config, inputs: Inputs, state: RunState, log: Log)
    ensures var begun := log + OpeningRows(config, inputs, state.counter + 1);
            var s := Ran(config, inputs, state, log).0;
            begun <= s.log && forall i :: |begun| <= i < |s.log| ==> !StartOrEnd(s.log[i])
  {
    hide Ran, OpeningRows;
    RanExtends(config, inputs, state, log);
  }

  lemma SessionStartsOnly(config: Config, inputs: Inputs, state: RunState, log: Log)
    ensures StartsOnly(config, Rows(SessionEffects(config, inputs, state, log)), inputs.now)
  {
    hide Rows, AbortRows;
    if inputs.promptsPresent {
      match inputs.harness {
        case SpawnFails =>
          RowsOfEmits(AbortRows(config, inputs, state.counter + 1));
          AbortStartsOnly(config, inputs, state.counter + 1);
        case PairingRefused =>
          RowsOfEmits([SessionRefused(state.counter)]);
          assert Emits([SessionRefused(state.counter)]) == [Emit(SessionRefused(state.counter))];
        case Serves =>
          ServedStartsOnly(config, inputs, state, log);
      }
    } else {
      NoRows();
    }
  }

  lemma NoRows()
    ensures Rows([]) == []
  {
  }

  lemma AbortStartsOnly(config: Config, inputs: Inputs, session: nat)
    ensures StartsOnly(config, AbortRows(config, inputs, session), inputs.now)
  {
  }

  // --- the boundary ---------------------------------------------------------------------------------------

  // What an invocation that is let in does at the boundary, from the rows it finds: it ends
  // the run for the budget exactly when that is spent, for the time exactly when it is not
  // and the first session is `tMax` old, and otherwise it does not end the run.
  lemma BoundaryDecides(config: Config, inputs: Inputs, w: World)
    requires !inputs.lockHeld && IsDue(inputs, w.log) && inputs.kind != EndRun && !HasEnded(w.log)
    ensures var rows := Rows(Invocation(config, inputs, w));
            && (Spend(w.log) >= config.budget ==> EndsTheRun(rows, "budget"))
            && (Spend(w.log) < config.budget && TimeIsUp(config, w.log, inputs.now) ==> EndsTheRun(rows, "t_max"))
            && (Spend(w.log) < config.budget && !TimeIsUp(config, w.log, inputs.now) ==> !HasEnded(rows))
  {
    hide Fold, Rows, Invocation, RecoveryRows, CompletionRows, SessionEffects, StopText, Stop, EndsTheRun, Due;
    DueIsFolded(inputs, w.log);
    EndIsFolded(w.log);
    StopIsFolded(config, inputs, w.log);
    RowsOfInvocation(config, inputs, w);
    RecoveryRowsAre(w.log);
    var state, log := Fold(w.log), w.log + RecoveryRows(w.log);
    var stop := Stop(config, inputs, state);
    if stop.Some? {
      EndsAfterRecovery(config, inputs, w, StopText(stop.value));
    } else {
      SessionStartsOnly(config, inputs, state, log);
    }
  }

  lemma EndsAfterRecovery(config: Config, inputs: Inputs, w: World, reason: string)
    ensures var rows := CompletionRows(config, inputs, Fold(w.log), w.log + RecoveryRows(w.log), reason);
            && Rows(Emits(rows)) == rows
            && EndsTheRun(RecoveryRows(w.log) + rows, reason)
  {
    hide Fold, RecoveryRows, CompletionRows, Rows;
    var rows := CompletionRows(config, inputs, Fold(w.log), w.log + RecoveryRows(w.log), reason);
    CompletionEnds(config, inputs, Fold(w.log), w.log + RecoveryRows(w.log), reason);
    RecoveryRowsAre(w.log);
    RowsOfEmits(rows);
  }

  // `end_run` ends a run that has not ended, whatever was spent.
  lemma ManualEndDecides(config: Config, inputs: Inputs, w: World)
    requires !inputs.lockHeld && inputs.kind == EndRun && !HasEnded(w.log)
    ensures EndsTheRun(Rows(Invocation(config, inputs, w)), "manual")
  {
    hide Fold, Rows, Invocation, RecoveryRows, CompletionRows, EndsTheRun;
    EndIsFolded(w.log);
    RowsOfInvocation(config, inputs, w);
    EndsAfterRecovery(config, inputs, w, "manual");
  }

  // --- sessions start in time, over every run -----------------------------------------------------------------

  // The rows of an invocation start at most one session, at its own moment, and only when
  // it found the time not up.
  lemma InvocationStartsInTime(config: Config, inputs: Inputs, w: World, i: nat)
    requires i < |Rows(Invocation(config, inputs, w))| && Rows(Invocation(config, inputs, w))[i].SessionStart?
    ensures Rows(Invocation(config, inputs, w))[i].ts == inputs.now && !TimeIsUp(config, w.log, inputs.now)
    ensures forall k :: 0 <= k < i ==> !Rows(Invocation(config, inputs, w))[k].SessionStart?
  {
    hide Fold, Rows, Invocation, RecoveryRows, CompletionRows, SessionEffects, StopText, Stop, TimeIsUp, Due;
    RecoveryRowsAre(w.log);
    LetIn(config, inputs, w);
    RowsOfInvocation(config, inputs, w);
    StopIsFolded(config, inputs, w.log);
    var state, after := Fold(w.log), w.log + RecoveryRows(w.log);
    var stop := Stop(config, inputs, state);
    if inputs.kind == EndRun {
      EndsAfterRecovery(config, inputs, w, "manual");
    } else if stop.Some? {
      EndsAfterRecovery(config, inputs, w, StopText(stop.value));
    } else {
      SessionStartsOnly(config, inputs, state, after);
    }
  }

  // However far an attempt comes, so are the starts that it adds.
  lemma NewStartIsInTime(config: Config, a: Attempt, w: World, j: nat)
    requires |w.log| <= j < |Apply(w, Done(config, a, w)).log| && Apply(w, Done(config, a, w)).log[j].SessionStart?
    ensures var log := Apply(w, Done(config, a, w)).log;
            && log[j].ts == a.inputs.now && !TimeIsUp(config, w.log, a.inputs.now)
            && forall k :: |w.log| <= k < j ==> !log[k].SessionStart?
  {
    hide Rows, Invocation, TimeIsUp;
    var program := Invocation(config, a.inputs, w);
    var log, rows := Apply(w, Done(config, a, w)).log, Rows(program);
    if a.cut < |program| {
      RowsOfPrefix(program, a.cut);
    }
    assert log <= w.log + rows;
    assert forall k :: |w.log| <= k <= j ==> log[k] == rows[k - |w.log|];
    InvocationStartsInTime(config, a.inputs, w, j - |w.log|);
  }

  // An invocation that starts a session was let in.
  lemma LetIn(config: Config, inputs: Inputs, w: World)
    requires exists i :: 0 <= i < |Rows(Invocation(config, inputs, w))|
                         && Rows(Invocation(config, inputs, w))[i].SessionStart?
    ensures !inputs.lockHeld && Due(inputs, Fold(w.log)) && !Fold(w.log).complete
  {
    hide Fold, Rows, RecoveryRows, Due, MainEffects, RecoveryEffects;
    NoRows();
    RowsOfRecovery(w);
    RecoveryRowsAre(w.log);
  }

  // Over every crash schedule, a session starts only while the first one is less than
  // `tMax` old and less than the budget is spent.
  lemma {:induction false} SessionsStartInTime(config: Config, attempts: seq<Attempt>, i: nat, j: nat)
    requires var log := After(config, attempts).log;
             IsFirstStart(log, i) && i < j < |log| && log[j].SessionStart?
    ensures After(config, attempts).log[j].ts - After(config, attempts).log[i].ts < config.tMax
  {
    hide Apply, Done, TimeIsUp;
    if attempts != [] {
      var n := |attempts| - 1;
      var w := After(config, attempts[..n]);
      var log := After(config, attempts).log;
      LogOnlyGrows(w, Done(config, attempts[n], w));
      assert forall k :: 0 <= k < |w.log| ==> log[k] == w.log[k];
      if j < |w.log| {
        SessionsStartInTime(config, attempts[..n], i, j);
      } else {
        NewStartIsInTime(config, attempts[n], w, j);
        assert i < |w.log|;
        StillFirst(w.log, log, i);
        NotUp(config, w.log, attempts[n].inputs.now, i);
      }
    }
  }

  lemma LogOnlyGrows(w: World, effects: seq<Effect>)
    ensures w.log <= Apply(w, effects).log
  {
  }

  lemma StillFirst(before: Log, log: Log, i: nat)
    requires before <= log && IsFirstStart(log, i) && i < |before|
    ensures IsFirstStart(before, i)
  {
  }

  lemma NotUp(config: Config, log: Log, now: int, i: nat)
    requires !TimeIsUp(config, log, now) && IsFirstStart(log, i)
    ensures now - log[i].ts < config.tMax
  {
  }

  lemma SessionsStartWithinBudget(config: Config, attempts: seq<Attempt>, j: nat)
    requires j < |After(config, attempts).log| && After(config, attempts).log[j].SessionStart?
    ensures Spend(After(config, attempts).log[..j]) < config.budget
  {
    hide After, Fold, Spend, Observe;
    var log := After(config, attempts).log;
    EveryRunIsWellFormed(config, attempts);
    PrefixesAreWellFormed(config.budget, log, j);
    FoldOfLog(config.budget, log[..j]);
    SpendIsFolded(log[..j]);
  }
}
