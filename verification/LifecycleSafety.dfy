/**
 What every crash schedule of `run_session` and `end_run` keeps: the log is well-formed
 after every effect, so the facts of `Observer` hold of it.
 */
module LifecycleSafety {
  import opened Options
  import opened Telemetry
  import opened Observer
  import opened Recovery
  import opened Lifecycle
  import AgentLoop
  import LoopAccounting
  import Governor

  // --- effects and their rows --------------------------------------------------------------

  lemma {:induction false} RowsConcat(a: seq<Effect>, b: seq<Effect>)
    ensures Rows(a + b) == Rows(a) + Rows(b)
  {
    if b == [] {
      assert a + b == a;
    } else {
      assert (a + b)[..|a + b| - 1] == a + b[..|b| - 1];
      RowsConcat(a, b[..|b| - 1]);
    }
  }

  lemma {:induction false} RowsOfEmits(rows: Log)
    ensures Rows(Emits(rows)) == rows
  {
    if rows != [] {
      var n := |rows| - 1;
      assert Emits(rows)[..n] == Emits(rows[..n]);
      RowsOfEmits(rows[..n]);
    }
  }

  lemma RowsOfPrefix(effects: seq<Effect>, k: nat)
    requires k <= |effects|
    ensures Rows(effects[..k]) <= Rows(effects)
  {
    assert effects == effects[..k] + effects[k..];
    RowsConcat(effects[..k], effects[k..]);
  }

  lemma RowsOfRecovery(w: World)
    ensures Rows(RecoveryEffects(w)) == RecoveryRows(w.log)
  {
    hide RecoveryRows, Crashed;
    if Crashed(w.log).Some? {
      var c := Crashed(w.log).value;
      RowsOfEmits(RecoveryRows(w.log));
      var tail := if c in w.journal then [] else [JournalEntry(c)];
      RowsConcat(Emits(RecoveryRows(w.log)), tail);
      assert Rows(tail) == [];
    } else {
      assert RecoveryRows(w.log) == [] by { NoRecovery(w.log); }
    }
  }

  lemma NoRecovery(log: Log)
    requires Crashed(log).None?
    ensures RecoveryRows(log) == []
  {
  }

  // --- rows that change nothing the observer sees -------------------------------------------

  predicate Quiet(budget: real, o: Seen, e: Event) {
    Allowed(budget, o, e) && Next(o, e) == o
  }

  lemma {:induction false} QuietRowsKeep(budget: real, log: Log, rows: Log)
    requires WellFormed(budget, log)
    requires forall i :: 0 <= i < |rows| ==> Quiet(budget, Observe(budget, log).value, rows[i])
    ensures Observe(budget, log + rows) == Observe(budget, log)
  {
    hide Observe;
    if rows == [] {
      assert log + rows == log;
    } else {
      var n := |rows| - 1;
      QuietRowsKeep(budget, log, rows[..n]);
      ObserveOne(budget, log + rows[..n], rows[n]);
      assert log + rows == log + rows[..n] + [rows[n]];
    }
  }

  // --- the end of the run ---------------------------------------------------------------------

  // The state folded before recovery, and the log after it.
  ghost predicate Recovered(config: Config, state: RunState, log: Log) {
    && WellFormed(config.budget, log)
    && var o := Observe(config.budget, log).value;
       && o.open.None? && !o.complete
       && state.counter == o.counter && state.cumulativeUsd == o.usd && state.cumulativeTokens == o.tokens
  }

  lemma CompletionIsWellFormed(config: Config, inputs: Inputs, state: RunState, log: Log, reason: string)
    requires Recovered(config, state, log)
    ensures WellFormed(config.budget, log + CompletionRows(config, inputs, state, log, reason))
  {
    hide Observe, CountCalls, Fold, Next, EndOfRunRows;
    var rows := EndOfRunRows(config, inputs, state.counter);
    var last := RunComplete(state.counter, reason, state.counter, CountCalls(log), state.cumulativeUsd,
                            state.cumulativeTokens,
                            Governor.OverspendUsd(state.cumulativeUsd, config.budget));
    FoldOfLog(config.budget, log);
    EndOfRunIsQuiet(config, inputs, state, log);
    QuietRowsKeep(config.budget, log, rows);
    ObserveOne(config.budget, log + rows, last);
    assert log + CompletionRows(config, inputs, state, log, reason) == log + rows + [last];
  }

  lemma EndOfRunIsQuiet(config: Config, inputs: Inputs, state: RunState, log: Log)
    requires Recovered(config, state, log)
    ensures var rows := EndOfRunRows(config, inputs, state.counter);
            forall i :: 0 <= i < |rows| ==> Quiet(config.budget, Observe(config.budget, log).value, rows[i])
  {
    hide Observe;
  }

  // --- a session -------------------------------------------------------------------------------

  lemma OpeningIsWellFormed(config: Config, inputs: Inputs, state: RunState, log: Log)
    requires Recovered(config, state, log) && state.cumulativeUsd < config.budget
    ensures var session := state.counter + 1;
            var log' := log + OpeningRows(config, inputs, session);
            && WellFormed(config.budget, log')
            && Observe(config.budget, log').value
               == Seen(session, Some(session), 0, false, state.cumulativeUsd, state.cumulativeTokens,
                       Observe(config.budget, log).value.calls, state.cumulativeUsd, NO_TOTALS, false)
            && log'[|log'| - 1].session == session
  {
    hide Observe, AttendanceRows, Quiet;
    var session := state.counter + 1;
    var start := SessionStart(session, inputs.now);
    var rows := AttendanceRows(config, inputs, session);
    ObserveOne(config.budget, log, start);
    AttendanceIsQuiet(config, inputs, session, Observe(config.budget, log + [start]).value);
    QuietRowsKeep(config.budget, log + [start], rows);
    assert log + OpeningRows(config, inputs, session) == log + [start] + rows;
  }

  lemma AttendanceIsQuiet(config: Config, inputs: Inputs, session: nat, o: Seen)
    requires o.open == Some(session) && !o.complete
    ensures var rows := AttendanceRows(config, inputs, session);
            forall i :: 0 <= i < |rows| ==> rows[i].session == session && Quiet(config.budget, o, rows[i])
  {
    hide Allowed, Next;
    var rows := AttendanceRows(config, inputs, session);
    assert forall i :: 0 <= i < |rows| ==> rows[i].session == session && (rows[i].ShellState? || rows[i].KeeperRow?);
    forall i | 0 <= i < |rows|
      ensures Quiet(config.budget, o, rows[i])
    {
      AttendanceRowIsQuiet(config.budget, o, rows[i]);
    }
  }

  lemma AttendanceRowIsQuiet(budget: real, o: Seen, e: Event)
    requires (e.ShellState? || e.KeeperRow?) && InOrAfter(o, e.session) && !o.complete
    ensures Quiet(budget, o, e)
  {
  }

  lemma OpeningStartsTheLoop(config: Config, inputs: Inputs, state: RunState, log: Log)
    requires Recovered(config, state, log) && state.cumulativeUsd < config.budget
    ensures var session := state.counter + 1;
            LoopAccounting.JustStarted(SessionEnv(inputs, session), config.budget,
                                       log + OpeningRows(config, inputs, session),
                                       state.cumulativeUsd, state.cumulativeTokens)
  {
    hide Observe, LoopAccounting.RebuiltTools, LoopAccounting.RebuiltTxs, LoopAccounting.SkippedTools;
    var session := state.counter + 1;
    OpeningIsWellFormed(config, inputs, state, log);
    forall i | 0 <= i < |log|
      ensures log[i].session != session
    {
      NumbersUpToCounter(config.budget, log, i);
    }
    LoopAccounting.NothingToRebuild(log, session);
    NothingOpens(log, OpeningRows(config, inputs, session), session);
  }

  // Rows that are not tool rows add nothing to a rebuilt journal.
  lemma {:induction false} NothingOpens(log: Log, rows: Log, session: nat)
    requires forall i :: 0 <= i < |rows| ==> !rows[i].ToolRow?
    ensures LoopAccounting.RebuiltTools(log + rows, session) == LoopAccounting.RebuiltTools(log, session)
    ensures LoopAccounting.SkippedTools(log + rows, session) == LoopAccounting.SkippedTools(log, session)
    ensures LoopAccounting.RebuiltTxs(log + rows, session) == LoopAccounting.RebuiltTxs(log, session)
  {
    if rows == [] {
      assert log + rows == log;
    } else {
      assert (log + rows)[..|log + rows| - 1] == log + rows[..|rows| - 1];
      NothingOpens(log, rows[..|rows| - 1], session);
    }
  }

  // The whole row list of a session that ran.
  function SessionRows(config: Config, inputs: Inputs, state: RunState, log: Log): Log {
    var session := state.counter + 1;
    var begun := log + OpeningRows(config, inputs, session);
    var (s, reason) := Ran(config, inputs, state, log);
    AgentLoop.SessionExtends(SessionEnv(inputs, session), begun, state.cumulativeUsd, state.cumulativeTokens);
    OpeningRows(config, inputs, session) + LoopRows(begun, s.log)
    + ClosingRows(config, session, reason, AgentLoop.LoopTotals(s))
    + [ScheduleNext(session, WakeAt(config, inputs, s.wake))]
  }

  lemma SessionRowsAre(config: Config, inputs: Inputs, state: RunState, log: Log)
    requires inputs.promptsPresent && inputs.harness == Serves
    ensures Rows(SessionEffects(config, inputs, state, log)) == SessionRows(config, inputs, state, log)
    ensures var (s, reason) := Ran(config, inputs, state, log);
            log + SessionRows(config, inputs, state, log)
            == s.log + ClosingRows(config, state.counter + 1, reason, AgentLoop.LoopTotals(s))
               + [ScheduleNext(state.counter + 1, WakeAt(config, inputs, s.wake))]
  {
    hide Ran, OpeningRows, ClosingRows, Rows, Emits;
    var session := state.counter + 1;
    var begun := log + OpeningRows(config, inputs, session);
    var (s, reason) := Ran(config, inputs, state, log);
    assert begun <= s.log by {
      RanExtends(config, inputs, state, log);
    }
    var closing := ClosingRows(config, session, reason, AgentLoop.LoopTotals(s));
    var rows := OpeningRows(config, inputs, session) + LoopRows(begun, s.log) + closing;
    var tail := [JournalEntry(session), Emit(ScheduleNext(session, WakeAt(config, inputs, s.wake)))];
    RowsConcat(Emits(rows), tail);
    RowsOfEmits(rows);
    TwoEffects(session, ScheduleNext(session, WakeAt(config, inputs, s.wake)));
    assert begun + LoopRows(begun, s.log) == s.log;
    var next := ScheduleNext(session, WakeAt(config, inputs, s.wake));
    assert log + (OpeningRows(config, inputs, session) + LoopRows(begun, s.log) + closing + [next])
        == begun + LoopRows(begun, s.log) + closing + [next];
  }

  lemma TwoEffects(session: nat, e: Event)
    ensures Rows([JournalEntry(session), Emit(e)]) == [e]
  {
    assert [JournalEntry(session), Emit(e)][..1] == [JournalEntry(session)];
    assert Rows([JournalEntry(session)]) == [];
  }

  lemma RanExtends(config: Config, inputs: Inputs, state: RunState, log: Log)
    ensures log + OpeningRows(config, inputs, state.counter + 1) <= Ran(config, inputs, state, log).0.log
    ensures AgentLoop.Appends(SessionEnv(inputs, state.counter + 1),
                              log + OpeningRows(config, inputs, state.counter + 1),
                              Ran(config, inputs, state, log).0.log)
  {
    hide OpeningRows, AgentLoop.WholeSession, AgentLoop.Appends;
    AgentLoop.SessionExtends(SessionEnv(inputs, state.counter + 1),
                             log + OpeningRows(config, inputs, state.counter + 1),
                             state.cumulativeUsd, state.cumulativeTokens);
  }

  lemma RanIsWellFormed(config: Config, inputs: Inputs, state: RunState, log: Log)
    requires Recovered(config, state, log) && state.cumulativeUsd < config.budget
    ensures var s := Ran(config, inputs, state, log).0;
            && WellFormed(config.budget, s.log)
            && Observe(config.budget, s.log).value.open == Some(state.counter + 1)
            && !Observe(config.budget, s.log).value.pending && !Observe(config.budget, s.log).value.complete
            && Observe(config.budget, s.log).value.totals == AgentLoop.LoopTotals(s)
            && Observe(config.budget, s.log).value.counter == state.counter + 1
            && (LoopAccounting.FairlyPriced(inputs.env) && LoopAccounting.CostsNonNegative(log)
                ==> LoopAccounting.CostsNonNegative(s.log))
  {
    hide Observe, Fold, OpeningRows, AgentLoop.WholeSession;
    var session := state.counter + 1;
    OpeningStartsTheLoop(config, inputs, state, log);
    var env := SessionEnv(inputs, session);
    var begun := log + OpeningRows(config, inputs, session);
    LoopAccounting.SessionIsAccounted(env, config.budget, begun, state.cumulativeUsd, state.cumulativeTokens);
    FoldOfLog(config.budget, Ran(config, inputs, state, log).0.log);
    OpenIsNotComplete(config.budget, Ran(config, inputs, state, log).0.log);
    assert LoopAccounting.CostsNonNegative(log) ==> LoopAccounting.CostsNonNegative(begun) by {
      OpeningCostsNothing(config, inputs, session);
    }
    assert LoopAccounting.FairlyPriced(inputs.env) ==> LoopAccounting.FairlyPriced(env);
  }

  lemma OpeningCostsNothing(config: Config, inputs: Inputs, session: nat)
    ensures var rows := OpeningRows(config, inputs, session); forall i :: 0 <= i < |rows| ==> !rows[i].LlmCall?
  {
  }

  lemma OpenIsNotComplete(budget: real, log: Log)
    requires WellFormed(budget, log) && Observe(budget, log).value.open.Some?
    ensures !Observe(budget, log).value.complete
  {
    if Observe(budget, log).value.complete {
      CompleteIsClosed(budget, log);
    }
  }

  lemma SessionIsWellFormed(config: Config, inputs: Inputs, state: RunState, log: Log)
    requires Recovered(config, state, log) && state.cumulativeUsd < config.budget
    requires inputs.promptsPresent && inputs.harness == Serves
    ensures WellFormed(config.budget, log + SessionRows(config, inputs, state, log))
  {
    hide Observe, Ran, OpeningRows, SessionRows;
    var session := state.counter + 1;
    var (s, reason) := Ran(config, inputs, state, log);
    RanIsWellFormed(config, inputs, state, log);
    SessionRowsAre(config, inputs, state, log);
    var closing := ClosingRows(config, session, reason, AgentLoop.LoopTotals(s));
    var shell := if config.shell then [ShellState(session)] else [];
    var end := SessionEnd(session, ReasonText(reason), AgentLoop.LoopTotals(s));
    var next := ScheduleNext(session, WakeAt(config, inputs, s.wake));
    QuietRowsKeep(config.budget, s.log, shell);
    ObserveOne(config.budget, s.log + shell, end);
    ObserveOne(config.budget, s.log + shell + [end], next);
    assert s.log + closing + [next] == s.log + shell + [end] + [next];
  }

  lemma AbortIsWellFormed(config: Config, inputs: Inputs, state: RunState, log: Log)
    requires Recovered(config, state, log) && state.cumulativeUsd < config.budget
    ensures var session := state.counter + 1;
            WellFormed(config.budget, log + AbortRows(config, inputs, session))
  {
    hide Observe;
    var session := state.counter + 1;
    var start, end := SessionStart(session, inputs.now), SessionEnd(session, ReasonText(AgentLoop.Errors), NO_TOTALS);
    var next := ScheduleNext(session, WakeAt(config, inputs, None));
    ObserveOne(config.budget, log, start);
    ObserveOne(config.budget, log + [start], end);
    ObserveOne(config.budget, log + [start] + [end], next);
    assert log + [start, end, next] == log + [start] + [end] + [next];
  }

  // --- every invocation, every cut, every run ---------------------------------------------------

  lemma SessionEffectsAreWellFormed(config: Config, inputs: Inputs, state: RunState, log: Log)
    requires Recovered(config, state, log) && state.cumulativeUsd < config.budget
    ensures WellFormed(config.budget, log + Rows(SessionEffects(config, inputs, state, log)))
  {
    hide Observe, Rows, Emits, SessionRows;
    var session := state.counter + 1;
    if !inputs.promptsPresent {
      assert Rows([]) == [] by { RowsOfEmits([]); assert Emits([]) == []; }
      assert log + [] == log;
    } else {
      match inputs.harness {
        case SpawnFails =>
          AbortIsWellFormed(config, inputs, state, log);
          RowsOfEmits(AbortRows(config, inputs, session));
        case PairingRefused =>
          RowsOfEmits([SessionRefused(session - 1)]);
          assert Emits([SessionRefused(session - 1)]) == [Emit(SessionRefused(session - 1))];
          ObserveOne(config.budget, log, SessionRefused(session - 1));
        case Serves =>
          SessionRowsAre(config, inputs, state, log);
          SessionIsWellFormed(config, inputs, state, log);
      }
    }
  }

  lemma MainIsWellFormed(config: Config, inputs: Inputs, state: RunState, log: Log)
    requires Recovered(config, state, log)
    ensures WellFormed(config.budget, log + Rows(MainEffects(config, inputs, state, log)))
  {
    hide Observe, Rows, Emits, SessionEffects, CompletionRows;
    var stop := Stop(config, inputs, state);
    if inputs.kind == EndRun {
      CompletionIsWellFormed(config, inputs, state, log, "manual");
      RowsOfEmits(CompletionRows(config, inputs, state, log, "manual"));
    } else if stop.Some? {
      CompletionIsWellFormed(config, inputs, state, log, StopText(stop.value));
      RowsOfEmits(CompletionRows(config, inputs, state, log, StopText(stop.value)));
    } else {
      SessionEffectsAreWellFormed(config, inputs, state, log);
    }
  }

  lemma RecoveryRecovers(config: Config, log: Log)
    requires WellFormed(config.budget, log) && !Observe(config.budget, log).value.complete
    ensures Recovered(config, Fold(log), log + RecoveryRows(log))
  {
    hide Observe, Fold, RecoveryRows;
    RecoveryIsWellFormed(config.budget, log);
    RecoveryKeepsTheFold(log);
    FoldOfLog(config.budget, log);
  }

  lemma InvocationIsWellFormed(config: Config, inputs: Inputs, w: World)
    requires WellFormed(config.budget, w.log)
    ensures WellFormed(config.budget, w.log + Rows(Invocation(config, inputs, w)))
  {
    hide Observe, Fold, Rows, MainEffects, RecoveryEffects, RecoveryRows;
    assert Rows([]) == [] by { RowsOfEmits([]); assert Emits([]) == []; }
    assert w.log + [] == w.log;
    FoldOfLog(config.budget, w.log);
    RowsOfRecovery(w);
    if Observe(config.budget, w.log).value.complete {
      RecoveryOfComplete(config.budget, w.log);
    } else {
      var log := w.log + RecoveryRows(w.log);
      RecoveryRecovers(config, w.log);
      MainIsWellFormed(config, inputs, Fold(w.log), log);
      RowsConcat(RecoveryEffects(w), MainEffects(config, inputs, Fold(w.log), log));
      assert w.log + (RecoveryRows(w.log) + Rows(MainEffects(config, inputs, Fold(w.log), log)))
          == log + Rows(MainEffects(config, inputs, Fold(w.log), log));
    }
  }

  lemma CutIsWellFormed(config: Config, a: Attempt, w: World)
    requires WellFormed(config.budget, w.log)
    ensures WellFormed(config.budget, Apply(w, Done(config, a, w)).log)
  {
    hide Observe, Rows, Invocation;
    var program := Invocation(config, a.inputs, w);
    InvocationIsWellFormed(config, a.inputs, w);
    if a.cut < |program| {
      RowsOfPrefix(program, a.cut);
      var whole, part := w.log + Rows(program), w.log + Rows(program[..a.cut]);
      PrefixesAreWellFormed(config.budget, whole, |part|);
      assert whole[..|part|] == part;
    }
  }

  // Over every crash schedule of every mix of invocations, with arbitrary adapters,
  // tools, clocks and keepers, the log is well-formed.
  lemma {:induction false} EveryRunIsWellFormed(config: Config, attempts: seq<Attempt>)
    ensures WellFormed(config.budget, After(config, attempts).log)
  {
    hide Observe, Done, Apply;
    if attempts != [] {
      EveryRunIsWellFormed(config, attempts[..|attempts| - 1]);
      CutIsWellFormed(config, attempts[|attempts| - 1], After(config, attempts[..|attempts| - 1]));
    } else {
      assert WellFormed(config.budget, []) by { EmptyIsWellFormed(config.budget); }
    }
  }

  lemma EmptyIsWellFormed(budget: real)
    ensures WellFormed(budget, [])
  {
  }

  // --- the lifecycle's promises -----------------------------------------------------------------

  // Safety over every run: at most one session is open, and every session has at most
  // one start and one end.
  lemma LifecycleIsSafe(config: Config, attempts: seq<Attempt>)
    ensures var log := After(config, attempts).log;
            && |OpenSessions(log)| <= 1
            && forall s :: Ends(log, s) <= Starts(log, s) <= 1
  {
    hide After, Observe, Starts, Ends;
    var log := After(config, attempts).log;
    EveryRunIsWellFormed(config, attempts);
    OneOpenSession(config.budget, log);
    forall s
      ensures Ends(log, s) <= Starts(log, s) <= 1
    {
      OneEndEach(config.budget, log, s);
    }
  }

  // A session starts under a number above every number recorded before it.
  lemma StartsAreNew(config: Config, attempts: seq<Attempt>, i: nat, j: nat)
    requires i < j < |After(config, attempts).log| && After(config, attempts).log[j].SessionStart?
    ensures After(config, attempts).log[i].session < After(config, attempts).log[j].session
  {
    hide After, Observe;
    EveryRunIsWellFormed(config, attempts);
    NumbersAreNew(config.budget, After(config, attempts).log, i, j);
  }

  // Every row of every run: the end of the run is the last row, requests are numbered and
  // paired, and the accounting written live is what the folds of the rows before compute.
  lemma EveryRowIsSafe(config: Config, attempts: seq<Attempt>, i: nat)
    requires i < |After(config, attempts).log|
    ensures var log := After(config, attempts).log;
            && (log[i].RunComplete? ==>
                  && i == |log| - 1
                  && log[i].sessions == Fold(log[..i]).counter && log[i].llmCalls == CountCalls(log[..i])
                  && log[i].cumulativeUsd == Fold(log[..i]).cumulativeUsd)
            && (log[i].SessionEnd? ==> log[i].totals == TotalsOf(log[..i], log[i].session))
            && (log[i].LlmRequest? ==>
                  && log[i].seqNo >= 1
                  && Started(log[..i], log[i].session) == Completed(log[..i], log[i].session) == UpTo(log[i].seqNo - 1))
            && (log[i].LlmCall? ==>
                  && log[i].seqNo in Started(log[..i], log[i].session)
                  && log[i].seqNo !in Completed(log[..i], log[i].session)
                  && log[i].cumulativeUsd == Fold(log[..i + 1]).cumulativeUsd
                  && log[i].cumulativeTokens == Fold(log[..i + 1]).cumulativeTokens)
  {
    hide After, Fold, TotalsOf, Started, Completed, Observe, UpTo, CountCalls;
    var log := After(config, attempts).log;
    EveryRunIsWellFormed(config, attempts);
    LiveAccountingIsTheFold(config.budget, log, i);
    if log[i].RunComplete? {
      RunCompleteIsLast(config.budget, log, i);
    }
    if log[i].LlmRequest? {
      RequestsAreNumbered(config.budget, log, i);
    }
    if log[i].LlmCall? {
      CallsArePaired(config.budget, log, i);
    }
  }

  // Once an invocation has finished its recovery, every session ever started has
  // exactly one end.
  lemma RecoveryClosesEverySession(config: Config, attempts: seq<Attempt>, s: nat)
    requires !Fold(After(config, attempts).log).complete
    ensures var w := After(config, attempts);
            var log := w.log + Rows(RecoveryEffects(w));
            Ends(log, s) == Starts(log, s) == if 1 <= s <= Fold(w.log).counter then 1 else 0
  {
    hide After, Fold, Rows, Observe, RecoveryEffects, RecoveryRows, Starts, Ends;
    var w := After(config, attempts);
    EveryRunIsWellFormed(config, attempts);
    FoldOfLog(config.budget, w.log);
    RowsOfRecovery(w);
    RecoveryRecovers(config, w.log);
    OneEndEach(config.budget, w.log + RecoveryRows(w.log), s);
  }

  lemma RefusalLeavesTheFold(log: Log)
    ensures Fold(log + [SessionRefused(Fold(log).counter)]) == Fold(log)
  {
    assert (log + [SessionRefused(Fold(log).counter)])[..|log|] == log;
  }

  // Recovery changes no folded field, however far it came.
  lemma PartialRecoveryKeepsTheFold(log: Log, k: nat)
    requires k <= |RecoveryRows(log)|
    ensures Fold(log + RecoveryRows(log)[..k]) == Fold(log)
  {
    hide Fold, RecoveryRows;
    var rows := RecoveryRows(log);
    RecoveryKeepsTheFold(log);
    assert rows[..|rows|] == rows;
    if k < |rows| {
      OnlyCrashesAreRecovered(log);
      RecoveryIsConfluent(log, k);
      RecoveryKeepsTheFold(log + rows[..k]);
      assert log + rows[..k] + rows[k..] == log + rows;
    }
  }

  lemma RefusedProgram(config: Config, inputs: Inputs, w: World)
    requires Result(config, inputs, w) == Refused
    ensures Rows(Invocation(config, inputs, w)) == RecoveryRows(w.log) + [SessionRefused(Fold(w.log).counter)]
  {
    hide Fold, Rows, RecoveryRows, RecoveryEffects;
    var refusal := SessionRefused(Fold(w.log).counter);
    assert MainEffects(config, inputs, Fold(w.log), w.log + RecoveryRows(w.log)) == Emits([refusal]);
    RowsOfRecovery(w);
    RowsOfEmits([refusal]);
    RowsConcat(RecoveryEffects(w), Emits([refusal]));
  }

  // A refused attempt consumes no number and leaves the folded state as it was, wherever
  // it dies: the next session starts under the number this attempt had claimed.
  lemma RefusalConsumesNoNumber(config: Config, a: Attempt, w: World)
    requires Result(config, a.inputs, w) == Refused
    ensures Fold(Apply(w, Done(config, a, w)).log) == Fold(w.log)
  {
    hide Fold, Rows, Invocation, RecoveryRows, Result;
    var program := Invocation(config, a.inputs, w);
    var done := Done(config, a, w);
    var rows, all := Rows(done), Rows(program);
    assert program[..|program|] == program;
    RowsOfPrefix(program, if a.cut < |program| then a.cut else |program|);
    RefusedProgram(config, a.inputs, w);
    assert rows == all[..|rows|];
    if |rows| <= |RecoveryRows(w.log)| {
      assert rows == RecoveryRows(w.log)[..|rows|];
      PartialRecoveryKeepsTheFold(w.log, |rows|);
    } else {
      var log := w.log + RecoveryRows(w.log);
      assert rows == RecoveryRows(w.log) + [SessionRefused(Fold(w.log).counter)];
      assert w.log + rows == log + [SessionRefused(Fold(w.log).counter)];
      RecoveryKeepsTheFold(w.log);
      RefusalLeavesTheFold(log);
    }
  }

  // After run_complete no invocation has any effect on the log.
  lemma CompleteRunsAreSilent(config: Config, attempts: seq<Attempt>, inputs: Inputs)
    requires Fold(After(config, attempts).log).complete
    ensures Rows(Invocation(config, inputs, After(config, attempts))) == []
  {
    hide After, Fold, Observe, RecoveryEffects, RecoveryRows;
    var w := After(config, attempts);
    EveryRunIsWellFormed(config, attempts);
    FoldOfLog(config.budget, w.log);
    RowsOfRecovery(w);
    RecoveryOfComplete(config.budget, w.log);
  }

  // --- the overspend, over every run --------------------------------------------------------------

  lemma CostsConcat(log: Log, rows: Log)
    requires LoopAccounting.CostsNonNegative(log) && LoopAccounting.CostsNonNegative(rows)
    ensures LoopAccounting.CostsNonNegative(log + rows)
  {
  }

  lemma {:induction false} PhantomsCostNothing(c: nat, state: RunState, seqs: seq<nat>)
    ensures LoopAccounting.CostsNonNegative(PhantomRows(c, state, seqs))
    decreases |seqs|
  {
    if seqs != [] {
      PhantomsCostNothing(c, state, seqs[1..]);
      CostsConcat([PhantomRow(c, state, seqs[0])], PhantomRows(c, state, seqs[1..]));
    }
  }

  lemma RecoveryCostsNothing(log: Log)
    ensures LoopAccounting.CostsNonNegative(RecoveryRows(log))
  {
    hide Crashed, PhantomRows, Fold, Phantoms, TotalsOf;
    if Crashed(log).Some? {
      var c := Crashed(log).value;
      PhantomsCostNothing(c, Fold(log), Phantoms(log, c));
    }
  }

  lemma MainCosts(config: Config, inputs: Inputs, state: RunState, log: Log)
    requires Recovered(config, state, log)
    requires LoopAccounting.CostsNonNegative(log) && LoopAccounting.FairlyPriced(inputs.env)
    ensures LoopAccounting.CostsNonNegative(log + Rows(MainEffects(config, inputs, state, log)))
  {
    hide Observe, Rows, Emits, Ran, EndOfRunRows, SessionRows, OpeningRows, LoopAccounting.FairlyPriced, CountCalls;
    var session := state.counter + 1;
    EndOfRunCostsNothing(config, inputs, state.counter);
    var stop := Stop(config, inputs, state);
    assert Rows([]) == [] by { RowsOfEmits([]); assert Emits([]) == []; }
    if inputs.kind == EndRun {
      RowsOfEmits(CompletionRows(config, inputs, state, log, "manual"));
    } else if stop.Some? {
      RowsOfEmits(CompletionRows(config, inputs, state, log, StopText(stop.value)));
    } else if inputs.promptsPresent {
      match inputs.harness {
        case SpawnFails =>
          RowsOfEmits(AbortRows(config, inputs, session));
        case PairingRefused =>
          RowsOfEmits([SessionRefused(session - 1)]);
          assert Emits([SessionRefused(session - 1)]) == [Emit(SessionRefused(session - 1))];
        case Serves =>
          SessionRowsAre(config, inputs, state, log);
          RanIsWellFormed(config, inputs, state, log);
      }
    }
  }

  lemma EndOfRunCostsNothing(config: Config, inputs: Inputs, session: nat)
    ensures var rows := EndOfRunRows(config, inputs, session); forall i :: 0 <= i < |rows| ==> !rows[i].LlmCall?
  {
  }

  lemma InvocationCosts(config: Config, inputs: Inputs, w: World)
    requires WellFormed(config.budget, w.log) && LoopAccounting.CostsNonNegative(w.log)
    requires LoopAccounting.FairlyPriced(inputs.env)
    ensures LoopAccounting.CostsNonNegative(w.log + Rows(Invocation(config, inputs, w)))
  {
    hide Observe, Fold, Rows, MainEffects, RecoveryEffects, RecoveryRows, LoopAccounting.CostsNonNegative;
    assert Rows([]) == [] by { RowsOfEmits([]); assert Emits([]) == []; }
    assert w.log + [] == w.log;
    FoldOfLog(config.budget, w.log);
    RowsOfRecovery(w);
    RecoveryCostsNothing(w.log);
    CostsConcat(w.log, RecoveryRows(w.log));
    if !Observe(config.budget, w.log).value.complete {
      var log := w.log + RecoveryRows(w.log);
      RecoveryRecovers(config, w.log);
      MainCosts(config, inputs, Fold(w.log), log);
      RowsConcat(RecoveryEffects(w), MainEffects(config, inputs, Fold(w.log), log));
      assert w.log + (RecoveryRows(w.log) + Rows(MainEffects(config, inputs, Fold(w.log), log)))
          == log + Rows(MainEffects(config, inputs, Fold(w.log), log));
    }
  }

  lemma {:induction false} EveryRunCosts(config: Config, attempts: seq<Attempt>)
    requires forall a :: a in attempts ==> LoopAccounting.FairlyPriced(a.inputs.env)
    ensures LoopAccounting.CostsNonNegative(After(config, attempts).log)
  {
    hide Observe, Invocation, LoopAccounting.FairlyPriced, Rows;
    if attempts != [] {
      var n := |attempts| - 1;
      var a := attempts[n];
      assert forall b :: b in attempts[..n] ==> b in attempts;
      EveryRunCosts(config, attempts[..n]);
      EveryRunIsWellFormed(config, attempts[..n]);
      var w := After(config, attempts[..n]);
      var program := Invocation(config, a.inputs, w);
      InvocationCosts(config, a.inputs, w);
      if a.cut < |program| {
        RowsOfPrefix(program, a.cut);
        assert forall k :: 0 <= k < |w.log + Rows(program[..a.cut])| ==>
                 (w.log + Rows(program[..a.cut]))[k] == (w.log + Rows(program))[k];
      }
    }
  }

  // The spend at the end of a run exceeds the budget by no more than its last session
  // cost, however the run was interrupted.
  lemma OverspendIsBounded(config: Config, attempts: seq<Attempt>, i: nat)
    requires config.budget >= 0.0
    requires forall a :: a in attempts ==> LoopAccounting.FairlyPriced(a.inputs.env)
    requires i < |After(config, attempts).log| && After(config, attempts).log[i].RunComplete?
    ensures var log := After(config, attempts).log;
            && log[i].overspend <= TotalsOf(log[..i], log[i].session).cost
            && log[i].cumulativeUsd <= config.budget + TotalsOf(log[..i], log[i].session).cost
  {
    hide After, Fold, TotalsOf, LoopAccounting.FairlyPriced, Observe;
    EveryRunIsWellFormed(config, attempts);
    EveryRunCosts(config, attempts);
    OverspendIsOneSession(config.budget, After(config, attempts).log, i);
    RunCompleteSaysIt(config.budget, After(config, attempts).log, i);
  }

  lemma RunCompleteSaysIt(budget: real, log: Log, i: nat)
    requires WellFormed(budget, log) && i < |log| && log[i].RunComplete?
    ensures log[i].overspend == Governor.OverspendUsd(log[i].cumulativeUsd, budget)
  {
    PrefixesAreWellFormed(budget, log, i);
  }

  lemma NegativeBudgetProgram(config: Config, inputs: Inputs, last: Event)
    requires config.budget < 0.0 && !config.keeper && !config.shell
    requires inputs.kind == Manual && !inputs.lockHeld
    requires last == RunComplete(0, StopText(Governor.Budget), 0, 0, 0.0, 0, -config.budget)
    ensures Invocation(config, inputs, World([], {})) == [Emit(last)]
  {
    hide Rows, SessionEffects;
    assert [] + RecoveryRows([]) == [];
    assert CompletionRows(config, inputs, FRESH, [], StopText(Governor.Budget)) == [last];
    assert Emits([last]) == [Emit(last)];
    assert RecoveryEffects(World([], {})) + [Emit(last)] == [Emit(last)];
  }

  // With a negative budget a run ends over its budget by more than anything it spent: the
  // first invocation completes it, and no session has cost anything.
  lemma NegativeBudgetOverspends(config: Config, inputs: Inputs)
    requires config.budget < 0.0 && !config.keeper && !config.shell
    requires inputs.kind == Manual && !inputs.lockHeld
    ensures var log := After(config, [Attempt(inputs, 1)]).log;
            |log| == 1 && log[0].RunComplete? && log[0].overspend == -config.budget > TotalsOf([], log[0].session).cost
  {
    hide Invocation, Rows;
    var a := Attempt(inputs, 1);
    var last := RunComplete(0, StopText(Governor.Budget), 0, 0, 0.0, 0, -config.budget);
    NegativeBudgetProgram(config, inputs, last);
    assert [a][..0] == [];
    assert Done(config, a, World([], {})) == [Emit(last)];
    assert Emits([last]) == [Emit(last)];
    RowsOfEmits([last]);
    assert [] + [last] == [last];
  }
}
