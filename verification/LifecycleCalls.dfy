/**
 What a served session comes to in a run: the schedule row it ends with, and the journal
 entry that recovery rebuilds for it wherever the invocation died.
 */
module LifecycleCalls {
  import opened Options
  import opened Telemetry
  import opened Observer
  import opened Recovery
  import opened Lifecycle
  import opened LifecycleSafety
  import AgentLoop
  import LifecycleEntries
  import LoopAccounting
  import LoopCalls

  // The invocation comes as far as serving a session.
  predicate RunsASession(config: Config, inputs: Inputs, w: World) {
    var state := Fold(w.log);
    && !inputs.lockHeld && Due(inputs, state) && !state.complete
    && LifecycleEntries.Served(config, inputs, state)
  }

  function SessionOf(w: World): nat {
    Fold(w.log).counter + 1
  }

  function EnvOf(inputs: Inputs, w: World): AgentLoop.Env {
    SessionEnv(inputs, SessionOf(w))
  }

  // The log on which the loop starts.
  function Begun(config: Config, inputs: Inputs, w: World): Log {
    w.log + RecoveryRows(w.log) + OpeningRows(config, inputs, SessionOf(w))
  }

  function SessionRun(config: Config, inputs: Inputs, w: World): (AgentLoop.Session, AgentLoop.Reason) {
    Ran(config, inputs, Fold(w.log), w.log + RecoveryRows(w.log))
  }

  lemma SessionRunIs(config: Config, inputs: Inputs, w: World)
    ensures SessionRun(config, inputs, w)
            == AgentLoop.WholeSession(EnvOf(inputs, w), Begun(config, inputs, w), Fold(w.log).cumulativeUsd,
                                      Fold(w.log).cumulativeTokens)
  {
    hide AgentLoop.WholeSession, OpeningRows, Fold, RecoveryRows;
  }

  // The session's number is new, so no call of its own is logged when it begins.
  lemma BeginsWithoutCalls(config: Config, inputs: Inputs, w: World)
    requires WellFormed(config.budget, w.log) && !Fold(w.log).complete
    ensures LoopCalls.ModelRows(Begun(config, inputs, w), SessionOf(w)) == []
  {
    hide Observe, Fold, RecoveryRows, LoopCalls.ModelRows;
    FoldOfLog(config.budget, w.log);
    RecoveryRecovers(config, w.log);
    var log := w.log + RecoveryRows(w.log);
    var opening := OpeningRows(config, inputs, SessionOf(w));
    forall i | 0 <= i < |log|
      ensures !LoopAccounting.ModelRow(log[i], SessionOf(w))
    {
      NumbersUpToCounter(config.budget, log, i);
    }
    forall i | 0 <= i < |opening|
      ensures !LoopAccounting.ModelRow(opening[i], SessionOf(w))
    {
    }
    assert LoopCalls.ModelRows([], SessionOf(w)) == [] by { NoModelRows(SessionOf(w)); }
    assert [] + log == log;
    LoopCalls.OtherRows([], log, SessionOf(w));
    LoopCalls.OtherRows(log, opening, SessionOf(w));
  }

  lemma NoModelRows(session: nat)
    ensures LoopCalls.ModelRows([], session) == []
  {
  }

  // The rows that follow the loop's own.
  function TailRows(config: Config, inputs: Inputs, w: World): Log {
    var (s, reason) := SessionRun(config, inputs, w);
    ClosingRows(config, SessionOf(w), reason, AgentLoop.LoopTotals(s))
    + [ScheduleNext(SessionOf(w), WakeAt(config, inputs, s.wake))]
  }

  lemma LogOfRun(config: Config, inputs: Inputs, w: World)
    requires RunsASession(config, inputs, w)
    ensures w.log + Rows(Invocation(config, inputs, w))
            == SessionRun(config, inputs, w).0.log + TailRows(config, inputs, w)
  {
    hide Ran, Fold, RecoveryRows, Rows, RecoveryEffects, SessionEffects, ClosingRows, SessionRows;
    var state, log := Fold(w.log), w.log + RecoveryRows(w.log);
    RowsOfRecovery(w);
    RowsConcat(RecoveryEffects(w), SessionEffects(config, inputs, state, log));
    SessionRowsAre(config, inputs, state, log);
    var rows := SessionRows(config, inputs, state, log);
    assert w.log + (RecoveryRows(w.log) + rows) == log + rows;
    var (s, reason) := Ran(config, inputs, state, log);
    var closing := ClosingRows(config, state.counter + 1, reason, AgentLoop.LoopTotals(s));
    var next := [ScheduleNext(state.counter + 1, WakeAt(config, inputs, s.wake))];
    assert s.log + closing + next == s.log + (closing + next);
  }

  // --- the schedule ---------------------------------------------------------------------------------

  // After a whole served session the next scheduled invocation is due exactly from the
  // wake that the session asked for last, clamped, or else from the default one.
  lemma NextWakeIsTheLastRequest(config: Config, inputs: Inputs, w: World, next: Inputs)
    requires WellFormed(config.budget, w.log) && RunsASession(config, inputs, w)
    ensures var (s, reason) := SessionRun(config, inputs, w);
            var asked := LoopCalls.Asked(EnvOf(inputs, w), s.requestSeq);
            && s.executed <= |asked|
            && LoopCalls.WakeIsOf(EnvOf(inputs, w), reason, asked[..s.executed], asked[s.executed..], s.wake)
            && (next.kind == Scheduled ==>
                  (Due(next, Fold(w.log + Rows(Invocation(config, inputs, w))))
                   <==> next.now >= inputs.later + if s.wake.Some? then s.wake.value else config.wakeDefault))
  {
    hide AgentLoop.WholeSession, SessionRun, Begun, Invocation, Rows, LoopCalls.ModelRows, LoopCalls.Asked;
    hide LoopCalls.WakeIsOf;
    BeginsWithoutCalls(config, inputs, w);
    SessionRunIs(config, inputs, w);
    LoopCalls.WakeIsTheLastRequest(EnvOf(inputs, w), Begun(config, inputs, w), Fold(w.log).cumulativeUsd,
                                   Fold(w.log).cumulativeTokens);
    LogOfRun(config, inputs, w);
    var s := SessionRun(config, inputs, w).0;
    ScheduleDecides(s.log + TailRows(config, inputs, w));
  }

  lemma ScheduleDecides(log: Log)
    requires log != [] && log[|log| - 1].ScheduleNext?
    ensures Fold(log).nextWakeAt == Some(log[|log| - 1].wakeAt)
  {
  }

  // --- the rebuilt entry --------------------------------------------------------------------------------

  lemma TailHasNoCalls(config: Config, inputs: Inputs, w: World, session: nat)
    ensures forall i :: 0 <= i < |TailRows(config, inputs, w)| ==>
                          !LoopAccounting.ModelRow(TailRows(config, inputs, w)[i], session)
  {
    hide SessionRun;
  }

  // Wherever an invocation that serves a session dies, the entry that recovery rebuilds
  // next is of the calls whose rows reached the log: a prefix of those the session asked
  // for, with their transactions in order.
  lemma RecoveryRebuildsTheLoggedCalls(config: Config, a: Attempt, w: World)
    requires WellFormed(config.budget, w.log) && RunsASession(config, a.inputs, w)
    ensures var log := Apply(w, Done(config, a, w)).log;
            LoopCalls.IsRebuiltFrom(EnvOf(a.inputs, w), SessionRun(config, a.inputs, w).0, log + RecoveryRows(log))
  {
    hide AgentLoop.WholeSession, SessionRun, Begun, Invocation, Rows, TailRows, LoopCalls.ModelRows, RecoveryRows;
    hide LoopCalls.IsRebuiltFrom, Fold;
    var log := Apply(w, Done(config, a, w)).log;
    var s := SessionRun(config, a.inputs, w).0;
    CallsOfACut(config, a, w);
    RecoveryRowsAre(log);
    LoopCalls.OtherRows(log, RecoveryRows(log), SessionOf(w));
    BeginsWithoutCalls(config, a.inputs, w);
    SessionRunIs(config, a.inputs, w);
    LoopCalls.RebuiltFromPart(EnvOf(a.inputs, w), Begun(config, a.inputs, w), Fold(w.log).cumulativeUsd,
                              Fold(w.log).cumulativeTokens, log + RecoveryRows(log));
  }

  lemma CallsOfACut(config: Config, a: Attempt, w: World)
    requires RunsASession(config, a.inputs, w)
    ensures LoopCalls.ModelRows(Apply(w, Done(config, a, w)).log, SessionOf(w))
            <= LoopCalls.ModelRows(SessionRun(config, a.inputs, w).0.log, SessionOf(w))
  {
    hide SessionRun, Invocation, Rows, TailRows, LoopCalls.ModelRows, Fold;
    var program := Invocation(config, a.inputs, w);
    var log := Apply(w, Done(config, a, w)).log;
    var whole := SessionRun(config, a.inputs, w).0.log + TailRows(config, a.inputs, w);
    LogOfRun(config, a.inputs, w);
    if a.cut < |program| {
      RowsOfPrefix(program, a.cut);
    }
    assert log == whole[..|log|];
    LoopCalls.RowsOfACut(whole, |log|, SessionOf(w));
    TailHasNoCalls(config, a.inputs, w, SessionOf(w));
    LoopCalls.OtherRows(SessionRun(config, a.inputs, w).0.log, TailRows(config, a.inputs, w), SessionOf(w));
  }
}
