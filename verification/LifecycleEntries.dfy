/**
 Which sessions have a journal entry.  An ended session has one exactly when the attempt
 that wrote its end recovered it, or served it with the harness, and did not die with
 that end as its last effect; what later invocations do makes no difference.
 */
module LifecycleEntries {
  import opened Options
  import opened Telemetry
  import opened Observer
  import opened Recovery
  import opened Lifecycle
  import opened LifecycleSafety
  import opened LifecycleJournal
  import AgentLoop

  // --- the condition --------------------------------------------------------------------------

  predicate IsEndOf(e: Effect, s: nat) {
    e.Emit? && e.event.SessionEnd? && e.event.session == s
  }

  // The attempt dies with the end of `s` as its last effect.
  predicate DiesAtTheEnd(config: Config, a: Attempt, w: World, s: nat) {
    var program := Invocation(config, a.inputs, w);
    0 < a.cut < |program| && IsEndOf(program[a.cut - 1], s)
  }

  // Whether an attempt that ends `s` also writes its entry: `s` is the session it
  // recovers or one that the harness serves, and it does not die right after the end.
  predicate KeepsEntry(config: Config, a: Attempt, w: World, s: nat) {
    (Crashed(w.log) == Some(s) || a.inputs.harness == Serves) && !DiesAtTheEnd(config, a, w, s)
  }

  // --- counting ends ----------------------------------------------------------------------------

  lemma {:induction false} EndsConcat(a: Log, b: Log, s: nat)
    ensures Ends(a + b, s) == Ends(a, s) + Ends(b, s)
  {
    if b == [] {
      assert a + b == a;
    } else {
      assert (a + b)[..|a + b| - 1] == a + b[..|b| - 1];
      EndsConcat(a, b[..|b| - 1], s);
    }
  }

  lemma {:induction false} NoEnds(rows: Log, s: nat)
    requires forall i :: 0 <= i < |rows| ==> !rows[i].SessionEnd?
    ensures Ends(rows, s) == 0
  {
    if rows != [] {
      NoEnds(rows[..|rows| - 1], s);
    }
  }

  function EndsDone(effects: seq<Effect>, k: nat, s: nat): nat
    requires k <= |effects|
  {
    Ends(Rows(effects[..k]), s)
  }

  // One more effect counts exactly when it is an end of `s`.
  lemma EndsStep(effects: seq<Effect>, k: nat, s: nat)
    requires 0 < k <= |effects|
    ensures EndsDone(effects, k, s) == EndsDone(effects, k - 1, s) + if IsEndOf(effects[k - 1], s) then 1 else 0
  {
    hide Rows, Ends;
    var e := effects[k - 1];
    assert effects[..k] == effects[..k - 1] + [e];
    RowsConcat(effects[..k - 1], [e]);
    RowsOfOne(e);
    EndsConcat(Rows(effects[..k - 1]), Rows([e]), s);
    EndsOfOne(e, s);
  }

  lemma RowsOfOne(e: Effect)
    ensures Rows([e]) == if e.Emit? then [e.event] else []
  {
    assert [e][..0] == [];
  }

  lemma EndsOfOne(e: Effect, s: nat)
    ensures Ends(Rows([e]), s) == if IsEndOf(e, s) then 1 else 0
  {
    RowsOfOne(e);
    assert Ends([], s) == 0;
    if e.Emit? {
      assert [e.event][..0] == [];
    }
  }

  // --- where a program ends a session, and where it journals it ---------------------------------------

  // After `k` effects `s` is ended exactly when `k >= at`, and journaled exactly when
  // moreover the entry is written and `k > at`.
  ghost predicate EndsAt(effects: seq<Effect>, s: nat, at: nat, entry: bool) {
    forall k :: 0 <= k <= |effects| ==>
                  && EndsDone(effects, k, s) == (if k >= at then 1 else 0)
                  && (s in Journaled(effects[..k]) <==> entry && k > at)
  }

  ghost predicate LeavesAlone(effects: seq<Effect>, s: nat) {
    forall k :: 0 <= k <= |effects| ==> EndsDone(effects, k, s) == 0 && s !in Journaled(effects[..k])
  }

  lemma EmitsLeaveAlone(rows: Log, s: nat)
    requires forall i :: 0 <= i < |rows| ==> !IsEndOf(Emit(rows[i]), s)
    ensures LeavesAlone(Emits(rows), s)
  {
    hide Rows, Journaled, Ends;
    forall k | 0 <= k <= |rows|
      ensures EndsDone(Emits(rows), k, s) == 0 && s !in Journaled(Emits(rows)[..k])
    {
      assert Emits(rows)[..k] == Emits(rows[..k]);
      RowsOfEmits(rows[..k]);
      EmitsJournalNothing(rows[..k]);
      NoEndsOf(rows[..k], s);
    }
  }

  lemma {:induction false} NoEndsOf(rows: Log, s: nat)
    requires forall i :: 0 <= i < |rows| ==> !IsEndOf(Emit(rows[i]), s)
    ensures Ends(rows, s) == 0
  {
    if rows != [] {
      NoEndsOf(rows[..|rows| - 1], s);
    }
  }

  // What precedes and what follows a session's end and entry changes nothing of either.
  lemma LeavesThenEnds(a: seq<Effect>, b: seq<Effect>, s: nat, at: nat, entry: bool)
    requires LeavesAlone(a, s) && EndsAt(b, s, at, entry) && at > 0
    ensures EndsAt(a + b, s, |a| + at, entry)
  {
    hide Rows, Journaled, Ends;
    forall k | 0 <= k <= |a + b|
      ensures EndsDone(a + b, k, s) == (if k >= |a| + at then 1 else 0)
      ensures s in Journaled((a + b)[..k]) <==> entry && k > |a| + at
    {
      if k <= |a| {
        assert (a + b)[..k] == a[..k];
        assert EndsDone(a, k, s) == 0;
      } else {
        SplitPrefix(a, b, k, s);
        assert EndsDone(a, |a|, s) == 0 && a[..|a|] == a;
        assert EndsDone(b, k - |a|, s) == if k - |a| >= at then 1 else 0;
      }
    }
  }

  lemma EndsThenLeaves(a: seq<Effect>, b: seq<Effect>, s: nat, at: nat, entry: bool)
    requires EndsAt(a, s, at, entry) && LeavesAlone(b, s) && at <= |a| && (entry ==> at < |a|)
    ensures EndsAt(a + b, s, at, entry)
  {
    hide Rows, Journaled, Ends;
    forall k | 0 <= k <= |a + b|
      ensures EndsDone(a + b, k, s) == (if k >= at then 1 else 0)
      ensures s in Journaled((a + b)[..k]) <==> entry && k > at
    {
      if k <= |a| {
        assert (a + b)[..k] == a[..k];
        assert EndsDone(a, k, s) == if k >= at then 1 else 0;
      } else {
        SplitPrefix(a, b, k, s);
        assert EndsDone(a, |a|, s) == 1 && a[..|a|] == a;
        assert EndsDone(b, k - |a|, s) == 0;
      }
    }
  }

  lemma LeaveBoth(a: seq<Effect>, b: seq<Effect>, s: nat)
    requires LeavesAlone(a, s) && LeavesAlone(b, s)
    ensures LeavesAlone(a + b, s)
  {
    hide Rows, Journaled, Ends;
    forall k | 0 <= k <= |a + b|
      ensures EndsDone(a + b, k, s) == 0 && s !in Journaled((a + b)[..k])
    {
      if k <= |a| {
        assert (a + b)[..k] == a[..k];
        assert EndsDone(a, k, s) == 0;
      } else {
        SplitPrefix(a, b, k, s);
        assert EndsDone(a, |a|, s) == 0 && a[..|a|] == a;
        assert EndsDone(b, k - |a|, s) == 0;
      }
    }
  }

  lemma SplitPrefix(a: seq<Effect>, b: seq<Effect>, k: nat, s: nat)
    requires |a| <= k <= |a + b|
    ensures EndsDone(a + b, k, s) == Ends(Rows(a), s) + EndsDone(b, k - |a|, s)
    ensures Journaled((a + b)[..k]) == Journaled(a) + Journaled(b[..k - |a|])
  {
    hide Rows, Journaled, Ends;
    assert (a + b)[..k] == a + b[..k - |a|];
    RowsConcat(a, b[..k - |a|]);
    EndsConcat(Rows(a), Rows(b[..k - |a|]), s);
    JournaledConcat(a, b[..k - |a|]);
  }

  // An end row and the entry after it.
  lemma EndAndEntry(end: Event, s: nat)
    requires end.SessionEnd? && end.session == s
    ensures EndsAt([Emit(end)], s, 1, false)
    ensures EndsAt([Emit(end), JournalEntry(s)], s, 1, true)
  {
    hide Rows, Journaled, Ends;
    var one, two := [Emit(end)], [Emit(end), JournalEntry(s)];
    assert one[..0] == two[..0] == [] && one[..1] == two[..1] == one && two[..2] == two;
    NothingDone(s);
    EndsStep(one, 1, s);
    EndsStep(two, 2, s);
    assert Journaled(one) == {} by {
      EmitsJournalNothing([end]);
      assert Emits([end]) == one;
    }
    assert Journaled(two) == {s} by {
      assert two == one + [JournalEntry(s)];
      JournaledConcat(one, [JournalEntry(s)]);
      OneEntry(s);
    }
  }

  lemma NothingDone(s: nat)
    ensures Ends(Rows([]), s) == 0 && Journaled([]) == {}
  {
  }

  // --- recovery -------------------------------------------------------------------------------------

  lemma {:induction false} PhantomsAreCalls(c: nat, state: RunState, seqs: seq<nat>)
    ensures forall i :: 0 <= i < |PhantomRows(c, state, seqs)| ==> PhantomRows(c, state, seqs)[i].LlmCall?
    decreases |seqs|
  {
    if seqs != [] {
      PhantomsAreCalls(c, state, seqs[1..]);
    }
  }

  lemma OtherEntry(c: nat, s: nat)
    requires c != s
    ensures LeavesAlone([JournalEntry(c)], s)
  {
    var one := [JournalEntry(c)];
    EndsStep(one, 1, s);
    assert one[..0] == [] && one[..1] == one;
    assert Rows([]) == [] && Journaled([]) == {};
    OneEntry(c);
  }

  lemma NothingLeavesAlone(s: nat)
    ensures LeavesAlone([], s)
  {
    EmitsLeaveAlone([], s);
    assert Emits([]) == [];
  }

  lemma RecoveryEnds(w: World, c: nat)
    requires Crashed(w.log) == Some(c) && c !in w.journal
    ensures |RecoveryEffects(w)| >= 2 && EndsAt(RecoveryEffects(w), c, |RecoveryEffects(w)| - 1, true)
  {
    hide Crashed, Phantoms, Fold, TotalsOf, PhantomRows, EndsAt, LeavesAlone;
    var phantoms := PhantomRows(c, Fold(w.log), Phantoms(w.log, c));
    var end := SessionEnd(c, CRASH, TotalsOf(w.log + phantoms, c));
    PhantomsAreCalls(c, Fold(w.log), Phantoms(w.log, c));
    EmitsLeaveAlone(phantoms, c);
    EndAndEntry(end, c);
    LeavesThenEnds(Emits(phantoms), [Emit(end), JournalEntry(c)], c, 1, true);
    assert RecoveryEffects(w) == Emits(phantoms) + [Emit(end), JournalEntry(c)];
  }

  lemma RecoveryLeaves(w: World, s: nat)
    requires Crashed(w.log) != Some(s)
    ensures LeavesAlone(RecoveryEffects(w), s)
  {
    hide Crashed, Phantoms, Fold, TotalsOf, PhantomRows, LeavesAlone;
    if Crashed(w.log).None? {
      NothingLeavesAlone(s);
    } else {
      var c := Crashed(w.log).value;
      PhantomsAreCalls(c, Fold(w.log), Phantoms(w.log, c));
      EmitsLeaveAlone(RecoveryRows(w.log), s);
      if c in w.journal {
        assert Emits(RecoveryRows(w.log)) + [] == Emits(RecoveryRows(w.log));
      } else {
        OtherEntry(c, s);
        LeaveBoth(Emits(RecoveryRows(w.log)), [JournalEntry(c)], s);
      }
    }
  }

  // --- the main part of an invocation -----------------------------------------------------------------

  lemma {:induction false} NoneCounted(rows: Log, s: nat)
    requires Ends(rows, s) == 0
    ensures forall i :: 0 <= i < |rows| ==> !IsEndOf(Emit(rows[i]), s)
  {
    if rows != [] {
      NoneCounted(rows[..|rows| - 1], s);
    }
  }

  lemma OpeningEndsNothing(config: Config, inputs: Inputs, session: nat, s: nat)
    ensures Ends(OpeningRows(config, inputs, session), s) == 0
  {
    NoEnds(OpeningRows(config, inputs, session), s);
  }

  // The loop itself ends no session.
  lemma LoopEndsNothing(config: Config, inputs: Inputs, state: RunState, log: Log, s: nat)
    ensures var begun := log + OpeningRows(config, inputs, state.counter + 1);
            begun <= Ran(config, inputs, state, log).0.log
            && Ends(LoopRows(begun, Ran(config, inputs, state, log).0.log), s) == 0
  {
    hide OpeningRows, Ran, Ends;
    var begun := log + OpeningRows(config, inputs, state.counter + 1);
    RanExtends(config, inputs, state, log);
    NoEnds(LoopRows(begun, Ran(config, inputs, state, log).0.log), s);
  }

  predicate Served(config: Config, inputs: Inputs, state: RunState) {
    && inputs.kind != EndRun && inputs.promptsPresent && inputs.harness == Serves
    && Stop(config, inputs, state).None?
  }

  predicate Aborted(config: Config, inputs: Inputs, state: RunState) {
    && inputs.kind != EndRun && inputs.promptsPresent && inputs.harness == SpawnFails
    && Stop(config, inputs, state).None?
  }

  // The effects of a served session: rows without an end, the end, the entry, the schedule.
  lemma ServedEffects(config: Config, inputs: Inputs, state: RunState, log: Log, s: nat)
    returns (rows: Log, end: Event, next: Event)
    requires Served(config, inputs, state)
    ensures MainEffects(config, inputs, state, log)
            == Emits(rows) + [Emit(end), JournalEntry(state.counter + 1)] + Emits([next])
    ensures Ends(rows, s) == 0 && end.SessionEnd? && end.session == state.counter + 1
    ensures next == ScheduleNext(state.counter + 1, WakeAt(config, inputs, Ran(config, inputs, state, log).0.wake))
  {
    hide Ran, OpeningRows, Ends;
    var session := state.counter + 1;
    var begun := log + OpeningRows(config, inputs, session);
    var (after, reason) := Ran(config, inputs, state, log);
    LoopEndsNothing(config, inputs, state, log, s);
    OpeningEndsNothing(config, inputs, session, s);
    var shell := if config.shell then [ShellState(session)] else [];
    NoEnds(shell, s);
    rows := OpeningRows(config, inputs, session) + LoopRows(begun, after.log) + shell;
    EndsConcat(OpeningRows(config, inputs, session), LoopRows(begun, after.log), s);
    EndsConcat(OpeningRows(config, inputs, session) + LoopRows(begun, after.log), shell, s);
    end := SessionEnd(session, ReasonText(reason), AgentLoop.LoopTotals(after));
    next := ScheduleNext(session, WakeAt(config, inputs, after.wake));
    ServedProgram(config, inputs, state, log, rows, end, next);
  }

  lemma ServedProgram(config: Config, inputs: Inputs, state: RunState, log: Log, rows: Log, end: Event, next: Event)
    requires Served(config, inputs, state)
    requires var session := state.counter + 1;
             var begun := log + OpeningRows(config, inputs, session);
             var (after, reason) := Ran(config, inputs, state, log);
             && begun <= after.log
             && rows == OpeningRows(config, inputs, session) + LoopRows(begun, after.log)
                        + (if config.shell then [ShellState(session)] else [])
             && end == SessionEnd(session, ReasonText(reason), AgentLoop.LoopTotals(after))
             && next == ScheduleNext(session, WakeAt(config, inputs, after.wake))
    ensures MainEffects(config, inputs, state, log)
            == Emits(rows) + [Emit(end), JournalEntry(state.counter + 1)] + Emits([next])
  {
    hide Ran, OpeningRows;
    var session := state.counter + 1;
    var begun := log + OpeningRows(config, inputs, session);
    var (after, reason) := Ran(config, inputs, state, log);
    var all := OpeningRows(config, inputs, session) + LoopRows(begun, after.log)
               + ClosingRows(config, session, reason, AgentLoop.LoopTotals(after));
    assert all == rows + [end];
    assert Emits(all) == Emits(rows) + [Emit(end)];
    assert MainEffects(config, inputs, state, log) == Emits(all) + [JournalEntry(session), Emit(next)];
  }

  lemma ServedEnds(config: Config, inputs: Inputs, state: RunState, log: Log, s: nat)
    requires Served(config, inputs, state)
    ensures var main := MainEffects(config, inputs, state, log);
            |main| >= 3
            && if s == state.counter + 1 then EndsAt(main, s, |main| - 2, true) else LeavesAlone(main, s)
  {
    hide MainEffects, EndsAt, LeavesAlone, Ends;
    var session := state.counter + 1;
    var rows, end, next := ServedEffects(config, inputs, state, log, s);
    var middle := [Emit(end), JournalEntry(session)];
    NoneCounted(rows, s);
    EmitsLeaveAlone(rows, s);
    EmitsLeaveAlone([next], s);
    if s == session {
      EndAndEntry(end, s);
      LeavesThenEnds(Emits(rows), middle, s, 1, true);
      EndsThenLeaves(Emits(rows) + middle, Emits([next]), s, |rows| + 1, true);
    } else {
      EmitsLeaveAlone([end], s);
      OtherEntry(session, s);
      LeaveBoth(Emits([end]), [JournalEntry(session)], s);
      assert middle == Emits([end]) + [JournalEntry(session)];
      LeaveBoth(Emits(rows), middle, s);
      LeaveBoth(Emits(rows) + middle, Emits([next]), s);
    }
  }

  lemma AbortedEnds(config: Config, inputs: Inputs, state: RunState, log: Log, s: nat)
    requires Aborted(config, inputs, state)
    ensures var main := MainEffects(config, inputs, state, log);
            |main| == 3
            && if s == state.counter + 1 then EndsAt(main, s, 2, false) else LeavesAlone(main, s)
  {
    hide EndsAt, LeavesAlone;
    var session := state.counter + 1;
    var start, end := SessionStart(session, inputs.now), SessionEnd(session, ReasonText(AgentLoop.Errors), NO_TOTALS);
    var next := ScheduleNext(session, WakeAt(config, inputs, None));
    assert MainEffects(config, inputs, state, log) == Emits([start, end, next]);
    if s == session {
      EmitsLeaveAlone([start], s);
      EmitsLeaveAlone([next], s);
      EndAndEntry(end, s);
      LeavesThenEnds(Emits([start]), [Emit(end)], s, 1, false);
      EndsThenLeaves(Emits([start]) + [Emit(end)], Emits([next]), s, 2, false);
      assert Emits([start, end, next]) == Emits([start]) + [Emit(end)] + Emits([next]);
    } else {
      EmitsLeaveAlone([start, end, next], s);
    }
  }

  lemma OtherwiseLeaves(config: Config, inputs: Inputs, state: RunState, log: Log, s: nat)
    requires !Served(config, inputs, state) && !Aborted(config, inputs, state)
    ensures LeavesAlone(MainEffects(config, inputs, state, log), s)
  {
    hide LeavesAlone, CountCalls, EndOfRunRows;
    EndOfRunEndsNothing(config, inputs, state.counter);
    NothingLeavesAlone(s);
    var stop := Stop(config, inputs, state);
    if inputs.kind == EndRun {
      EmitsLeaveAlone(CompletionRows(config, inputs, state, log, "manual"), s);
    } else if stop.Some? {
      EmitsLeaveAlone(CompletionRows(config, inputs, state, log, StopText(stop.value)), s);
    } else if inputs.promptsPresent {
      EmitsLeaveAlone([SessionRefused(state.counter)], s);
      assert Emits([SessionRefused(state.counter)]) == [Emit(SessionRefused(state.counter))];
    }
  }

  lemma EndOfRunEndsNothing(config: Config, inputs: Inputs, session: nat)
    ensures var rows := EndOfRunRows(config, inputs, session); forall i :: 0 <= i < |rows| ==> !rows[i].SessionEnd?
  {
  }

  // --- the whole program --------------------------------------------------------------------------------

  ghost predicate JournalIsOfEnded(w: World) {
    forall s :: s in w.journal ==> Ends(w.log, s) == 1
  }

  // Whether an invocation ends `s`, after how many of its effects, and with an entry or not.
  lemma ProgramEnds(config: Config, inputs: Inputs, w: World, s: nat) returns (ends: bool, at: nat)
    requires WellFormed(config.budget, w.log) && Ends(w.log, s) == 0 && JournalIsOfEnded(w)
    ensures var program := Invocation(config, inputs, w);
            var entry := Crashed(w.log) == Some(s) || inputs.harness == Serves;
            && (ends ==> 0 < at <= |program| && (entry ==> at < |program|) && EndsAt(program, s, at, entry))
            && (!ends ==> LeavesAlone(program, s))
  {
    hide Fold, Observe, EndsAt, LeavesAlone, RecoveryEffects, MainEffects, RecoveryRows, Crashed, Ends, Due;
    var state := Fold(w.log);
    var recovery := RecoveryEffects(w);
    NothingLeavesAlone(s);
    ends, at := false, 0;
    if inputs.lockHeld || !Due(inputs, state) {
      return;
    }
    if Crashed(w.log) == Some(s) {
      RecoveryEnds(w, s);
      ends, at := true, |recovery| - 1;
    } else {
      RecoveryLeaves(w, s);
    }
    if !state.complete {
      var main := MainEffects(config, inputs, state, w.log + RecoveryRows(w.log));
      var mainEnds, mainAt := MainEnds(config, inputs, w, s);
      if ends {
        CrashedIsCounted(w.log, s);
        EndsThenLeaves(recovery, main, s, at, true);
      } else if mainEnds {
        LeavesThenEnds(recovery, main, s, mainAt, inputs.harness == Serves);
        ends, at := true, |recovery| + mainAt;
      } else {
        LeaveBoth(recovery, main, s);
      }
    }
  }

  lemma CrashedIsCounted(log: Log, c: nat)
    requires Crashed(log) == Some(c)
    ensures c <= Fold(log).counter
  {
    hide Fold;
    OpenSessionsAreCounted(log, c);
  }

  lemma MainEnds(config: Config, inputs: Inputs, w: World, s: nat) returns (ends: bool, at: nat)
    ensures var main := MainEffects(config, inputs, Fold(w.log), w.log + RecoveryRows(w.log));
            && (ends ==> s == Fold(w.log).counter + 1 && 0 < at <= |main|)
            && (ends && inputs.harness == Serves ==> at < |main|)
            && (ends ==> EndsAt(main, s, at, inputs.harness == Serves))
            && (!ends ==> LeavesAlone(main, s))
  {
    hide Fold, EndsAt, LeavesAlone, MainEffects, RecoveryRows;
    var state, log := Fold(w.log), w.log + RecoveryRows(w.log);
    ends, at := false, 0;
    if Served(config, inputs, state) {
      ServedEnds(config, inputs, state, log, s);
      if s == state.counter + 1 {
        ends, at := true, |MainEffects(config, inputs, state, log)| - 2;
      }
    } else if Aborted(config, inputs, state) {
      AbortedEnds(config, inputs, state, log, s);
      if s == state.counter + 1 {
        ends, at := true, 2;
      }
    } else {
      OtherwiseLeaves(config, inputs, state, log, s);
    }
  }

  // --- one attempt --------------------------------------------------------------------------------------

  // How much of its program an attempt performs.
  function Performed(config: Config, a: Attempt, w: World): nat {
    var program := Invocation(config, a.inputs, w);
    if a.cut < |program| then a.cut else |program|
  }

  lemma AfterAttempt(config: Config, a: Attempt, w: World, s: nat)
    ensures var v := Apply(w, Done(config, a, w));
            var program := Invocation(config, a.inputs, w);
            var k := Performed(config, a, w);
            && Ends(v.log, s) == Ends(w.log, s) + EndsDone(program, k, s)
            && v.journal == w.journal + Journaled(program[..k])
  {
    hide Rows, Ends, Journaled, Invocation;
    var program := Invocation(config, a.inputs, w);
    assert program[..|program|] == program;
    EndsConcat(w.log, Rows(Done(config, a, w)), s);
  }

  // The attempt that writes a session's end writes its entry exactly when the condition holds.
  lemma EntryOfNewEnd(config: Config, a: Attempt, w: World, s: nat)
    requires WellFormed(config.budget, w.log) && JournalIsOfEnded(w)
    requires Ends(w.log, s) == 0 && Ends(Apply(w, Done(config, a, w)).log, s) == 1
    ensures s in Apply(w, Done(config, a, w)).journal <==> KeepsEntry(config, a, w, s)
  {
    hide Observe, Ends, Rows, Journaled, Invocation, Crashed, Apply, Done;
    var program := Invocation(config, a.inputs, w);
    var k := Performed(config, a, w);
    var ends, at := ProgramEnds(config, a.inputs, w, s);
    AfterAttempt(config, a, w, s);
    assert s !in w.journal;
    if 0 < a.cut < |program| {
      EndsStep(program, a.cut, s);
    }
  }

  // Entries are only ever written for ended sessions.
  lemma AttemptJournalsEnded(config: Config, a: Attempt, w: World)
    requires WellFormed(config.budget, w.log) && JournalIsOfEnded(w)
    ensures JournalIsOfEnded(Apply(w, Done(config, a, w)))
  {
    hide Observe, Ends, Starts, Rows, Journaled, Invocation, Crashed, Apply, Done, DiesAtTheEnd;
    var v := Apply(w, Done(config, a, w));
    CutIsWellFormed(config, a, w);
    forall s | s in v.journal
      ensures Ends(v.log, s) == 1
    {
      AfterAttempt(config, a, w, s);
      OneEndEach(config.budget, v.log, s);
      OneEndEach(config.budget, w.log, s);
      if s !in w.journal && Ends(w.log, s) == 0 {
        var ends, at := ProgramEnds(config, a.inputs, w, s);
      }
    }
  }

  lemma {:induction false} JournaledAreEnded(config: Config, attempts: seq<Attempt>)
    ensures JournalIsOfEnded(After(config, attempts))
  {
    hide Apply, Done, Ends;
    if attempts != [] {
      var n := |attempts| - 1;
      JournaledAreEnded(config, attempts[..n]);
      EveryRunIsWellFormed(config, attempts[..n]);
      AttemptJournalsEnded(config, attempts[n], After(config, attempts[..n]));
    }
  }

  // --- whole runs -----------------------------------------------------------------------------------------

  // Attempt `i` of the run is the one that writes the end of `s`.
  ghost predicate EndsIn(config: Config, attempts: seq<Attempt>, i: int, s: nat) {
    && 0 <= i < |attempts|
    && Ends(After(config, attempts[..i]).log, s) == 0
    && Ends(After(config, attempts[..i + 1]).log, s) == 1
  }

  lemma AfterOneMore(config: Config, attempts: seq<Attempt>, i: nat)
    requires i < |attempts|
    ensures var w := After(config, attempts[..i]);
            After(config, attempts[..i + 1]) == Apply(w, Done(config, attempts[i], w))
  {
    hide Apply, Done;
    assert attempts[..i + 1][..i] == attempts[..i];
  }

  lemma {:induction false} JournalGrows(config: Config, before: seq<Attempt>, more: seq<Attempt>)
    ensures After(config, before).journal <= After(config, before + more).journal
  {
    hide Done, Journaled, Rows;
    if more == [] {
      assert before + more == before;
    } else {
      var n := |more| - 1;
      JournalGrows(config, before, more[..n]);
      assert (before + more)[..|before + more| - 1] == before + more[..n];
    }
  }

  // Over every run: an ended session has an entry exactly when the attempt that ended it
  // met the condition, whatever followed.
  lemma EntryIsDecidedByItsAttempt(config: Config, attempts: seq<Attempt>, i: nat, s: nat)
    requires EndsIn(config, attempts, i, s)
    ensures s in After(config, attempts).journal
            <==> KeepsEntry(config, attempts[i], After(config, attempts[..i]), s)
  {
    hide After, Apply, Done, Ends, KeepsEntry, Observe;
    var w := After(config, attempts[..i]);
    EveryRunIsWellFormed(config, attempts[..i]);
    JournaledAreEnded(config, attempts[..i]);
    AfterOneMore(config, attempts, i);
    EntryOfNewEnd(config, attempts[i], w, s);
    var before, more := attempts[..i + 1], attempts[i + 1..];
    assert attempts == before + more;
    if s in After(config, before).journal {
      JournalGrows(config, before, more);
    } else {
      LostEntryIsLostForGood(config, before, more, s);
    }
  }

  // A session that recovery ended keeps its entry even when the same invocation then
  // aborts the next session at the handshake.
  lemma RecoveredSessionKeepsItsEntry(config: Config, attempts: seq<Attempt>, i: nat, s: nat)
    requires EndsIn(config, attempts, i, s)
    requires Crashed(After(config, attempts[..i]).log) == Some(s) && attempts[i].inputs.harness == SpawnFails
    requires attempts[i].cut >= |Invocation(config, attempts[i].inputs, After(config, attempts[..i]))|
    ensures s in After(config, attempts).journal
  {
    hide After, Crashed, Ends, Invocation;
    EntryIsDecidedByItsAttempt(config, attempts, i, s);
  }

  lemma {:induction false} EndedInSomeAttempt(config: Config, attempts: seq<Attempt>, s: nat) returns (i: nat)
    requires Ends(After(config, attempts).log, s) == 1
    ensures EndsIn(config, attempts, i, s)
  {
    hide After, Ends, Starts, Observe;
    assert attempts != [] by {
      NothingEnded(config, s);
    }
    var n := |attempts| - 1;
    assert attempts[..n + 1] == attempts;
    EveryRunIsWellFormed(config, attempts[..n]);
    OneEndEach(config.budget, After(config, attempts[..n]).log, s);
    if Ends(After(config, attempts[..n]).log, s) == 0 {
      i := n;
    } else {
      i := EndedInSomeAttempt(config, attempts[..n], s);
      assert attempts[..n][..i] == attempts[..i] && attempts[..n][..i + 1] == attempts[..i + 1];
    }
  }

  lemma NothingEnded(config: Config, s: nat)
    ensures Ends(After(config, []).log, s) == 0
  {
  }

  ghost predicate AllEntriesKept(config: Config, attempts: seq<Attempt>) {
    forall i, s ::
      EndsIn(config, attempts, i, s) ==> KeepsEntry(config, attempts[i], After(config, attempts[..i]), s)
  }

  ghost predicate AllJournaled(w: World) {
    forall s :: Ends(w.log, s) == 1 ==> s in w.journal
  }

  // Every session that ended is journaled exactly when every attempt that ended a session
  // kept its entry: the session was recovered or served, and the attempt did not die at
  // its end.
  lemma EverySessionIsJournaledExactly(config: Config, attempts: seq<Attempt>)
    ensures AllJournaled(After(config, attempts)) <==> AllEntriesKept(config, attempts)
  {
    hide After, Ends, KeepsEntry;
    var w := After(config, attempts);
    if AllJournaled(w) {
      forall i, s | EndsIn(config, attempts, i, s)
        ensures KeepsEntry(config, attempts[i], After(config, attempts[..i]), s)
      {
        StaysEnded(config, attempts, i, s);
        EntryIsDecidedByItsAttempt(config, attempts, i, s);
      }
    }
    if AllEntriesKept(config, attempts) {
      forall s | Ends(w.log, s) == 1
        ensures s in w.journal
      {
        var i := EndedInSomeAttempt(config, attempts, s);
        EntryIsDecidedByItsAttempt(config, attempts, i, s);
      }
    }
  }

  lemma StaysEnded(config: Config, attempts: seq<Attempt>, i: nat, s: nat)
    requires EndsIn(config, attempts, i, s)
    ensures Ends(After(config, attempts).log, s) == 1
  {
    hide After, Ends, Starts, Observe;
    var before, more := attempts[..i + 1], attempts[i + 1..];
    assert attempts == before + more;
    EndsOnlyGrow(config, before, more, s);
    EveryRunIsWellFormed(config, attempts);
    OneEndEach(config.budget, After(config, attempts).log, s);
  }

  lemma {:induction false} EndsOnlyGrow(config: Config, before: seq<Attempt>, more: seq<Attempt>, s: nat)
    ensures Ends(After(config, before).log, s) <= Ends(After(config, before + more).log, s)
  {
    hide Done, Journaled, Rows, Ends;
    if more == [] {
      assert before + more == before;
    } else {
      var n := |more| - 1;
      EndsOnlyGrow(config, before, more[..n], s);
      assert (before + more)[..|before + more| - 1] == before + more[..n];
      var w := After(config, before + more[..n]);
      EndsGrow(w.log, Rows(Done(config, more[n], w)), s);
    }
  }

  // --- the two ways to lose an entry, on the first session of a run -----------------------------------------

  lemma FirstProgram(config: Config, inputs: Inputs)
    requires inputs.kind == Manual && !inputs.lockHeld
    ensures After(config, []) == World([], {}) && Fold([]) == FRESH
    ensures Invocation(config, inputs, World([], {})) == MainEffects(config, inputs, FRESH, [])
    ensures Ends([], 1) == 0
  {
    hide MainEffects;
    var w := World([], {});
    assert Crashed(w.log) == None;
    assert w.log + RecoveryRows(w.log) == [];
    assert RecoveryEffects(w) + MainEffects(config, inputs, FRESH, []) == MainEffects(config, inputs, FRESH, []);
  }

  lemma FirstSessionLosesItsEntry(config: Config, inputs: Inputs, cut: nat, more: seq<Attempt>, at: nat, entry: bool)
    requires inputs.kind == Manual && !inputs.lockHeld
    requires EndsAt(MainEffects(config, inputs, FRESH, []), 1, at, entry)
    requires at <= |MainEffects(config, inputs, FRESH, [])|
    requires cut >= at && (entry ==> cut == at < |MainEffects(config, inputs, FRESH, [])|)
    ensures var w := After(config, [Attempt(inputs, cut)] + more);
            Ends(w.log, 1) == 1 && 1 !in w.journal
  {
    hide MainEffects, Invocation, Apply, Done, Ends, Rows, Journaled, Fold, Observe;
    var a := Attempt(inputs, cut);
    var w := World([], {});
    FirstProgram(config, inputs);
    AfterAttempt(config, a, w, 1);
    assert [a][..0] == [] && [a][..1] == [a];
    AfterOneMore(config, [a], 0);
    LostEntryIsLostForGood(config, [a], more, 1);
  }

  // No death is needed: a handshake that fails leaves an ended session without an entry,
  // and no later invocation writes it.
  lemma AbortedSessionIsNeverJournaled(config: Config, inputs: Inputs, cut: nat, more: seq<Attempt>)
    requires inputs.kind == Manual && !inputs.lockHeld && inputs.promptsPresent && inputs.harness == SpawnFails
    requires config.budget > 0.0 && cut >= 2
    ensures var w := After(config, [Attempt(inputs, cut)] + more);
            Ends(w.log, 1) == 1 && 1 !in w.journal
  {
    hide MainEffects, After, EndsAt, Ends, LeavesAlone;
    AbortedEnds(config, inputs, FRESH, [], 1);
    FirstSessionLosesItsEntry(config, inputs, cut, more, 2, false);
  }

  // Nor does a served session whose process dies right after the end row have one.
  lemma DyingAtTheEndLosesTheEntry(config: Config, inputs: Inputs, more: seq<Attempt>)
    requires inputs.kind == Manual && !inputs.lockHeld && inputs.promptsPresent && inputs.harness == Serves
    requires config.budget > 0.0
    ensures var program := Invocation(config, inputs, World([], {}));
            |program| >= 3
            && var w := After(config, [Attempt(inputs, |program| - 2)] + more);
               Ends(w.log, 1) == 1 && 1 !in w.journal
  {
    hide MainEffects, Invocation, After, EndsAt, Ends, LeavesAlone, Fold;
    FirstProgram(config, inputs);
    ServedEnds(config, inputs, FRESH, [], 1);
    var main := MainEffects(config, inputs, FRESH, []);
    FirstSessionLosesItsEntry(config, inputs, |main| - 2, more, |main| - 2, true);
  }
}
