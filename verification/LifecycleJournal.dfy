/**
 The journal entry that can be lost.  A session's entry is written after its
 session_end row, live and in recovery alike, and recovery looks only at sessions
 without an end: dying exactly between the two effects loses the entry for good.
 */
module LifecycleJournal {
  import opened Options
  import opened Telemetry
  import opened Observer
  import opened Recovery
  import opened Lifecycle
  import opened LifecycleSafety
  import AgentLoop

  lemma {:induction false} EmitsJournalNothing(rows: Log)
    ensures Journaled(Emits(rows)) == {}
  {
    if rows != [] {
      var n := |rows| - 1;
      assert Emits(rows)[..n] == Emits(rows[..n]);
      EmitsJournalNothing(rows[..n]);
    }
  }

  lemma {:induction false} JournaledConcat(a: seq<Effect>, b: seq<Effect>)
    ensures Journaled(a + b) == Journaled(a) + Journaled(b)
  {
    if b == [] {
      assert a + b == a;
    } else {
      assert (a + b)[..|a + b| - 1] == a + b[..|b| - 1];
      JournaledConcat(a, b[..|b| - 1]);
    }
  }

  lemma JournaledPrefix(effects: seq<Effect>, k: nat)
    requires k <= |effects|
    ensures Journaled(effects[..k]) <= Journaled(effects)
  {
    assert effects == effects[..k] + effects[k..];
    JournaledConcat(effects[..k], effects[k..]);
  }

  // --- the window ---------------------------------------------------------------------------

  // Recovery cut after k effects: the crashed session is closed exactly when at most
  // one effect is missing, and journaled exactly when none is.
  lemma RecoveryWindow(w: World, k: nat)
    requires Crashed(w.log).Some? && Crashed(w.log).value !in w.journal
    requires k <= |RecoveryEffects(w)|
    ensures var c := Crashed(w.log).value;
            var n := |RecoveryEffects(w)|;
            var v := Apply(w, RecoveryEffects(w)[..k]);
            && (c !in OpenSessions(v.log) <==> k >= n - 1)
            && (c in v.journal <==> k == n)
  {
    hide RecoveryRows, Crashed, OpenSessions, Rows, Journaled;
    var c := Crashed(w.log).value;
    var rows := RecoveryRows(w.log);
    var effects := RecoveryEffects(w);
    var v := Apply(w, effects[..k]);
    assert effects == Emits(rows) + [JournalEntry(c)];
    RecoveryHasAnEnd(w.log);
    if k <= |rows| {
      assert effects[..k] == Emits(rows[..k]);
      RowsOfEmits(rows[..k]);
      EmitsJournalNothing(rows[..k]);
    } else {
      assert effects[..k] == effects;
      JournaledConcat(Emits(rows), [JournalEntry(c)]);
      assert Journaled([JournalEntry(c)]) == {c} by { OneEntry(c); }
      RowsOfRecovery(w);
    }
    RecoveryKeepsTheFold(w.log);
    assert rows[..|rows|] == rows;
    if k < |rows| {
      RecoveryIsConfluent(w.log, k);
      CrashedIsOpenSession(w.log + rows[..k]);
    }
  }

  lemma OneEntry(c: nat)
    ensures Journaled([JournalEntry(c)]) == {c}
  {
    assert [JournalEntry(c)][..0] == [];
  }

  lemma RecoveryHasAnEnd(log: Log)
    requires Crashed(log).Some?
    ensures RecoveryRows(log) != []
  {
  }

  lemma CrashedIsOpenSession(log: Log)
    requires Crashed(log).Some?
    ensures Crashed(log).value in OpenSessions(log)
  {
  }

  // --- what an invocation may journal ----------------------------------------------------------

  lemma RecoveryJournals(w: World)
    ensures forall s :: s in Journaled(RecoveryEffects(w)) ==> Crashed(w.log) == Some(s)
  {
    hide RecoveryRows, Crashed, Journaled;
    if Crashed(w.log).Some? {
      var c := Crashed(w.log).value;
      var tail := if c in w.journal then [] else [JournalEntry(c)];
      JournaledConcat(Emits(RecoveryRows(w.log)), tail);
      EmitsJournalNothing(RecoveryRows(w.log));
      OneEntry(c);
      assert Journaled([]) == {} by { EmitsJournalNothing([]); assert Emits([]) == []; }
    } else {
      assert Journaled([]) == {} by { EmitsJournalNothing([]); assert Emits([]) == []; }
    }
  }

  lemma MainJournals(config: Config, inputs: Inputs, state: RunState, log: Log)
    ensures Journaled(MainEffects(config, inputs, state, log)) <= {state.counter + 1}
  {
    hide Journaled, Ran, OpeningRows, ClosingRows, CompletionRows, Emits;
    var session := state.counter + 1;
    assert Journaled([]) == {} by { EmitsJournalNothing([]); assert Emits([]) == []; }
    var stop := Stop(config, inputs, state);
    if inputs.kind == EndRun {
      EmitsJournalNothing(CompletionRows(config, inputs, state, log, "manual"));
    } else if stop.Some? {
      EmitsJournalNothing(CompletionRows(config, inputs, state, log, StopText(stop.value)));
    } else if inputs.promptsPresent {
      match inputs.harness {
        case SpawnFails =>
          EmitsJournalNothing(AbortRows(config, inputs, session));
        case PairingRefused =>
          EmitsJournalNothing([SessionRefused(session - 1)]);
          assert Emits([SessionRefused(session - 1)]) == [Emit(SessionRefused(session - 1))];
        case Serves =>
          ServedJournals(config, inputs, state, log);
      }
    }
  }

  lemma ServedJournals(config: Config, inputs: Inputs, state: RunState, log: Log)
    requires inputs.promptsPresent && inputs.harness == Serves
    ensures Journaled(SessionEffects(config, inputs, state, log)) == {state.counter + 1}
  {
    hide Journaled, Ran, OpeningRows, ClosingRows, Emits;
    var session := state.counter + 1;
    var begun := log + OpeningRows(config, inputs, session);
    var (s, reason) := Ran(config, inputs, state, log);
    RanExtends(config, inputs, state, log);
    var rows := OpeningRows(config, inputs, session) + LoopRows(begun, s.log)
                + ClosingRows(config, session, reason, AgentLoop.LoopTotals(s));
    var next := Emit(ScheduleNext(session, WakeAt(config, inputs, s.wake)));
    EmitsJournalNothing(rows);
    JournaledConcat(Emits(rows), [JournalEntry(session), next]);
    assert Journaled([JournalEntry(session), next]) == {session} by {
      OneEntry(session);
      assert [JournalEntry(session), next] == [JournalEntry(session)] + [next];
      JournaledConcat([JournalEntry(session)], [next]);
      EmitsJournalNothing([next.event]);
      assert Emits([next.event]) == [next];
    }
  }

  lemma InvocationJournals(config: Config, inputs: Inputs, w: World)
    ensures forall s :: s in Journaled(Invocation(config, inputs, w)) ==>
                          Crashed(w.log) == Some(s) || s == Fold(w.log).counter + 1
  {
    hide Journaled, MainEffects, RecoveryEffects, RecoveryRows, Fold, Crashed;
    assert Journaled([]) == {} by { EmitsJournalNothing([]); assert Emits([]) == []; }
    RecoveryJournals(w);
    MainJournals(config, inputs, Fold(w.log), w.log + RecoveryRows(w.log));
    JournaledConcat(RecoveryEffects(w), MainEffects(config, inputs, Fold(w.log), w.log + RecoveryRows(w.log)));
  }

  // --- lost for good -----------------------------------------------------------------------------

  lemma {:induction false} EndsGrow(log: Log, rows: Log, s: nat)
    ensures Ends(log, s) <= Ends(log + rows, s)
  {
    if rows == [] {
      assert log + rows == log;
    } else {
      assert (log + rows)[..|log + rows| - 1] == log + rows[..|rows| - 1];
      EndsGrow(log, rows[..|rows| - 1], s);
    }
  }

  lemma StaysLost(config: Config, a: Attempt, w: World, s: nat)
    requires WellFormed(config.budget, w.log) && Ends(w.log, s) == 1 && s !in w.journal
    ensures var v := Apply(w, Done(config, a, w));
            Ends(v.log, s) == 1 && s !in v.journal
  {
    hide Journaled, Rows, Invocation, Observe, Fold, Ends, Starts;
    var program := Invocation(config, a.inputs, w);
    var done := Done(config, a, w);
    OneEndEach(config.budget, w.log, s);
    FoldOfLog(config.budget, w.log);
    CrashedIsOpen(config.budget, w.log);
    InvocationJournals(config, a.inputs, w);
    if a.cut < |program| {
      JournaledPrefix(program, a.cut);
    }
    CutIsWellFormed(config, a, w);
    EndsGrow(w.log, Rows(done), s);
    OneEndEach(config.budget, w.log + Rows(done), s);
  }

  // A session that has its end but not its entry never gets the entry, whatever
  // invocations follow.
  lemma {:induction false} LostEntryIsLostForGood(config: Config, before: seq<Attempt>, more: seq<Attempt>, s: nat)
    requires Ends(After(config, before).log, s) == 1 && s !in After(config, before).journal
    ensures Ends(After(config, before + more).log, s) == 1 && s !in After(config, before + more).journal
  {
    hide Apply, Done, Ends, Observe;
    if more == [] {
      assert before + more == before;
    } else {
      var n := |more| - 1;
      LostEntryIsLostForGood(config, before, more[..n], s);
      EveryRunIsWellFormed(config, before + more[..n]);
      assert (before + more)[..|before + more| - 1] == before + more[..n];
      StaysLost(config, more[n], After(config, before + more[..n]), s);
    }
  }
}
