/**
 The runner itself (runner.py): `run_session` and `end_run` perform, effect by effect,
 the programs of `Lifecycle`.
 */
module Runner {
  import opened Options
  import opened Telemetry
  import opened Recovery
  import opened Lifecycle
  import LifecycleSafety
  import LifecycleJournal
  import AgentLoop
  import Governor

  lemma ApplyConcat(w: World, a: seq<Effect>, b: seq<Effect>)
    ensures Apply(Apply(w, a), b) == Apply(w, a + b)
  {
    LifecycleSafety.RowsConcat(a, b);
    LifecycleJournal.JournaledConcat(a, b);
  }

  lemma ApplyEmits(w: World, rows: Log)
    ensures Apply(w, Emits(rows)) == World(w.log + rows, w.journal)
  {
    LifecycleSafety.RowsOfEmits(rows);
    LifecycleJournal.EmitsJournalNothing(rows);
  }

  lemma ApplyEntry(w: World, session: nat)
    ensures Apply(w, [JournalEntry(session)]) == World(w.log, w.journal + {session})
  {
    LifecycleJournal.OneEntry(session);
    assert Rows([JournalEntry(session)]) == [];
  }

  lemma EmitsConcat(a: Log, b: Log)
    ensures Emits(a + b) == Emits(a) + Emits(b)
  {
  }

  lemma ApplyNothing(w: World)
    ensures Apply(w, []) == w
  {
  }

  lemma {:induction false} OneMorePhantom(c: nat, state: RunState, seqs: seq<nat>, q: nat)
    ensures PhantomRows(c, state, seqs + [q]) == PhantomRows(c, state, seqs) + [PhantomRow(c, state, q)]
    decreases |seqs|
  {
    if seqs == [] {
      assert PhantomRows(c, state, [q]) == [PhantomRow(c, state, q)] + PhantomRows(c, state, []);
      assert [] + [q] == [q];
    } else {
      assert (seqs + [q])[1..] == seqs[1..] + [q];
      OneMorePhantom(c, state, seqs[1..], q);
    }
  }

  class Runner {
    const config: Config
    const telemetry: TelemetryWriter
    var journal: set<nat>
    ghost var done: seq<Effect>

    constructor (config: Config, telemetry: TelemetryWriter, journal: set<nat>)
      ensures this.config == config && this.telemetry == telemetry && done == []
      ensures View() == World(telemetry.log, journal)
    {
      this.config, this.telemetry, this.journal, done := config, telemetry, journal, [];
    }

    ghost function View(): World
      reads this, telemetry
    {
      World(telemetry.log, journal)
    }

    // Since a state of the world `w` with effects `d` done, `effects` have been performed.
    ghost predicate Did(w: World, d: seq<Effect>, effects: seq<Effect>)
      reads this, telemetry
    {
      View() == Apply(w, effects) && done == d + effects
    }

    lemma Then(w: World, d: seq<Effect>, first: seq<Effect>, next: seq<Effect>)
      requires Did(Apply(w, first), d + first, next)
      ensures Did(w, d, first + next)
    {
      hide Apply;
      ApplyConcat(w, first, next);
      assert d + first + next == d + (first + next);
    }

    method EmitAll(rows: Log)
      modifies this, telemetry
      ensures Did(old(View()), old(done), Emits(rows))
      ensures telemetry.log == old(telemetry.log) + rows && journal == old(journal)
    {
      for i := 0 to |rows|
        invariant telemetry.log == old(telemetry.log) + rows[..i] && journal == old(journal) && done == old(done)
      {
        telemetry.Emit(rows[i]);
      }
      assert rows[..|rows|] == rows;
      done := done + Emits(rows);
      ApplyEmits(old(View()), rows);
    }

    method AppendEntry(session: nat)
      modifies this
      ensures Did(old(View()), old(done), [JournalEntry(session)])
      ensures telemetry.log == old(telemetry.log)
    {
      journal := journal + {session};
      done := done + [JournalEntry(session)];
      ApplyEntry(old(View()), session);
    }

    method Recover(state: RunState)
      requires state == Fold(telemetry.log)
      modifies this, telemetry
      ensures Did(old(View()), old(done), RecoveryEffects(old(View())))
      ensures telemetry.log == old(telemetry.log) + RecoveryRows(old(telemetry.log))
    {
      hide Fold, Apply, Emits;
      ghost var w, d := View(), done;
      var crashed := CrashedSession(telemetry.log);
      if crashed.None? {
        ApplyNothing(w);
        return;
      }
      var c := crashed.value;
      var seqs := PhantomRequests(telemetry.log, c);
      for i := 0 to |seqs|
        invariant telemetry.log == w.log + PhantomRows(c, state, seqs[..i]) && journal == w.journal && done == d
      {
        assert seqs[..i + 1] == seqs[..i] + [seqs[i]];
        OneMorePhantom(c, state, seqs[..i], seqs[i]);
        telemetry.Emit(LlmCall(c, seqs[i], 0, 0.0, state.cumulativeUsd, state.cumulativeTokens, true));
      }
      assert seqs[..|seqs|] == seqs;
      var totals := SessionTotals(telemetry.log, c);
      telemetry.Emit(SessionEnd(c, CRASH, totals));
      assert telemetry.log == w.log + RecoveryRows(w.log);
      done := done + Emits(RecoveryRows(w.log));
      ApplyEmits(w, RecoveryRows(w.log));
      if c !in journal {
        AppendEntry(c);
        Then(w, d, Emits(RecoveryRows(w.log)), [JournalEntry(c)]);
      } else {
        assert Emits(RecoveryRows(w.log)) + [] == Emits(RecoveryRows(w.log));
      }
    }

    method CompleteRun(inputs: Inputs, state: RunState, reason: string)
      modifies this, telemetry
      ensures Did(old(View()), old(done), Emits(CompletionRows(config, inputs, state, old(telemetry.log), reason)))
    {
      hide Fold, Apply, Emits, CountCalls;
      ghost var w, d := View(), done;
      var calls := CountLlmCalls(telemetry.log);
      var session := state.counter;
      var rows: Log := [];
      if config.keeper {
        rows := rows + [ToolRow(session, None, KEEPER_STOP_ALL, false, inputs.stopOk, false, [])];
        rows := rows + [ToolRow(session, None, KEEPER_REVOKE, false, inputs.revokeOk, false, [])];
        rows := rows + KeeperRows(session, inputs.receipts);
      }
      if config.shell {
        rows := rows + [ShellState(session)];
      }
      rows := rows + [RunComplete(session, reason, session, calls, state.cumulativeUsd, state.cumulativeTokens,
                                  Governor.OverspendUsd(state.cumulativeUsd, config.budget))];
      assert rows == CompletionRows(config, inputs, state, w.log, reason);
      EmitAll(rows);
    }

    // The session itself, between its opening rows and its closing ones.
    method RunTheLoop(inputs: Inputs, state: RunState, session: nat)
      returns (loop: AgentLoop.SessionLoop, reason: AgentLoop.Reason)
      modifies this, telemetry
      ensures fresh(loop) && loop.telemetry == telemetry && journal == old(journal)
      ensures (loop.View(), reason) == AgentLoop.WholeSession(SessionEnv(inputs, session), old(telemetry.log),
                                                              state.cumulativeUsd, state.cumulativeTokens)
      ensures old(telemetry.log) <= telemetry.log
      ensures Did(old(View()), old(done), Emits(LoopRows(old(telemetry.log), telemetry.log)))
    {
      hide Apply, Emits, AgentLoop.Turns, AgentLoop.InjectAll, AgentLoop.Begin;
      ghost var w := View();
      loop := new AgentLoop.SessionLoop(SessionEnv(inputs, session), telemetry, state.cumulativeUsd,
                                        state.cumulativeTokens);
      reason := loop.RunLoop();
      AgentLoop.SessionExtends(SessionEnv(inputs, session), w.log, state.cumulativeUsd, state.cumulativeTokens);
      done := done + Emits(LoopRows(w.log, telemetry.log));
      ApplyEmits(w, LoopRows(w.log, telemetry.log));
      assert w.log + LoopRows(w.log, telemetry.log) == telemetry.log;
    }

    method RunOneSession(inputs: Inputs, state: RunState) returns (outcome: Outcome)
      modifies this, telemetry
      ensures Did(old(View()), old(done), SessionEffects(config, inputs, state, old(telemetry.log)))
      ensures !inputs.promptsPresent ==> outcome == MissingPrompts
      ensures inputs.promptsPresent ==> outcome == match inputs.harness
                                                   case SpawnFails => SessionAborted
                                                   case PairingRefused => Refused
                                                   case Serves => SessionRan
    {
      hide Apply, Emits, AgentLoop.WholeSession;
      ghost var w, d := View(), done;
      var session := state.counter + 1;
      if !inputs.promptsPresent {
        ApplyNothing(w);
        return MissingPrompts;
      }
      match inputs.harness {
        case SpawnFails =>
          EmitAll(AbortRows(config, inputs, session));
          return SessionAborted;
        case PairingRefused =>
          EmitAll([SessionRefused(session - 1)]);
          OneEmit(SessionRefused(session - 1));
          return Refused;
        case Serves =>
          ServeSession(inputs, state);
          return SessionRan;
      }
    }

    lemma OneEmit(e: Event)
      ensures Emits([e]) == [Emit(e)]
    {
    }

    method ServeSession(inputs: Inputs, state: RunState)
      requires inputs.promptsPresent && inputs.harness == Serves
      modifies this, telemetry
      ensures Did(old(View()), old(done), SessionEffects(config, inputs, state, old(telemetry.log)))
    {
      hide Apply, Emits, Did, AgentLoop.WholeSession, OpeningRows, ClosingRows;
      ghost var w, d := View(), done;
      var session := state.counter + 1;
      EmitAll(OpeningRows(config, inputs, session));
      ghost var begun := telemetry.log;
      ghost var effects := Emits(OpeningRows(config, inputs, session));
      DidIs(w, d, effects);
      var loop, reason := RunTheLoop(inputs, state, session);
      ghost var s := loop.View();
      Then(w, d, effects, Emits(LoopRows(begun, telemetry.log)));
      effects := effects + Emits(LoopRows(begun, s.log));
      DidIs(w, d, effects);
      var totals := Totals(loop.llmCalls, loop.toolRows, loop.cost, loop.tokens);
      var wake := loop.wake;
      EmitAll(ClosingRows(config, session, reason, totals));
      Then(w, d, effects, Emits(ClosingRows(config, session, reason, totals)));
      effects := effects + Emits(ClosingRows(config, session, reason, totals));
      DidIs(w, d, effects);
      AppendEntry(session);
      Then(w, d, effects, [JournalEntry(session)]);
      effects := effects + [JournalEntry(session)];
      DidIs(w, d, effects);
      EmitAll([ScheduleNext(session, WakeAt(config, inputs, wake))]);
      OneEmit(ScheduleNext(session, WakeAt(config, inputs, wake)));
      Then(w, d, effects, [Emit(ScheduleNext(session, WakeAt(config, inputs, wake)))]);
      EffectsOfService(config, inputs, state, w.log, s, reason);
    }

    lemma DidIs(w: World, d: seq<Effect>, effects: seq<Effect>)
      requires Did(w, d, effects)
      ensures View() == Apply(w, effects) && done == d + effects
    {
    }

    method RunSession(inputs: Inputs) returns (outcome: Outcome)
      requires inputs.kind != EndRun
      modifies this, telemetry
      ensures Did(old(View()), old(done), Invocation(config, inputs, old(View())))
      ensures outcome == Result(config, inputs, old(View()))
    {
      hide Apply, Fold, RecoveryEffects, RecoveryRows, SessionEffects, CompletionRows;
      ghost var w, d := View(), done;
      if inputs.lockHeld {
        ApplyNothing(w);
        return LockHeld;
      }
      var state := FoldTelemetry(telemetry.log);
      if inputs.kind == Scheduled && state.nextWakeAt.Some? && inputs.now < state.nextWakeAt.value {
        ApplyNothing(w);
        return NotDue;
      }
      Recover(state);
      if state.complete {
        return AlreadyComplete;
      }
      ghost var log := telemetry.log;
      var stop := Stop(config, inputs, state);
      if stop.Some? {
        CompleteRun(inputs, state, StopText(stop.value));
        outcome := RunCompleted;
      } else {
        outcome := RunOneSession(inputs, state);
      }
      Then(w, d, RecoveryEffects(w), MainEffects(config, inputs, state, log));
    }

    method EndTheRun(inputs: Inputs) returns (outcome: Outcome)
      requires inputs.kind == EndRun
      modifies this, telemetry
      ensures Did(old(View()), old(done), Invocation(config, inputs, old(View())))
      ensures outcome == Result(config, inputs, old(View()))
    {
      hide Apply, Fold, RecoveryEffects, RecoveryRows, SessionEffects, CompletionRows;
      ghost var w, d := View(), done;
      if inputs.lockHeld {
        ApplyNothing(w);
        return LockHeld;
      }
      var state := FoldTelemetry(telemetry.log);
      Recover(state);
      if state.complete {
        return AlreadyComplete;
      }
      ghost var log := telemetry.log;
      CompleteRun(inputs, state, "manual");
      Then(w, d, RecoveryEffects(w), MainEffects(config, inputs, state, log));
      return RunCompleted;
    }
  }

  lemma EffectsOfService(config: Config, inputs: Inputs, state: RunState, log: Log, s: AgentLoop.Session,
                         reason: AgentLoop.Reason)
    requires inputs.promptsPresent && inputs.harness == Serves
    requires (s, reason) == Ran(config, inputs, state, log)
    requires log + OpeningRows(config, inputs, state.counter + 1) <= s.log
    ensures var session := state.counter + 1;
            SessionEffects(config, inputs, state, log)
            == Emits(OpeningRows(config, inputs, session))
               + Emits(LoopRows(log + OpeningRows(config, inputs, session), s.log))
               + Emits(ClosingRows(config, session, reason, AgentLoop.LoopTotals(s)))
               + [JournalEntry(session)]
               + [Emit(ScheduleNext(session, WakeAt(config, inputs, s.wake)))]
  {
    hide Emits, Ran, OpeningRows, ClosingRows;
    var session := state.counter + 1;
    var a := OpeningRows(config, inputs, session);
    var b := LoopRows(log + a, s.log);
    var c := ClosingRows(config, session, reason, AgentLoop.LoopTotals(s));
    EmitsConcat(a, b);
    EmitsConcat(a + b, c);
    var tail := Emit(ScheduleNext(session, WakeAt(config, inputs, s.wake)));
    assert [JournalEntry(session), tail] == [JournalEntry(session)] + [tail];
  }

  method CountLlmCalls(events: Log) returns (n: nat)
    ensures n == CountCalls(events)
  {
    n := 0;
    for i := 0 to |events|
      invariant n == CountCalls(events[..i])
    {
      assert events[..i + 1][..i] == events[..i];
      if events[i].LlmCall? {
        n := n + 1;
      }
    }
    assert events[..|events|] == events;
  }
}
