/**
 Crash recovery (runner.py `_recover`): the rows it writes, one by one, and why being
 interrupted and repeated any number of times changes nothing.
 */
module Recovery {
  import opened Options
  import opened Telemetry
  import opened Observer

  const CRASH := "crash"

  // The row of a request that was written ahead and never completed: cost 0, and the
  // totals the fold already has.
  function PhantomRow(session: nat, state: RunState, q: nat): Event {
    LlmCall(session, q, 0, 0.0, state.cumulativeUsd, state.cumulativeTokens, true)
  }

  function PhantomRows(session: nat, state: RunState, seqs: seq<nat>): Log {
    if seqs == [] then [] else [PhantomRow(session, state, seqs[0])] + PhantomRows(session, state, seqs[1..])
  }

  // Closing session `c`: its phantom rows, then the synthetic end that counts them.
  function Closing(log: Log, c: nat): Log {
    var phantoms := PhantomRows(c, Fold(log), Phantoms(log, c));
    phantoms + [SessionEnd(c, CRASH, TotalsOf(log + phantoms, c))]
  }

  function RecoveryRows(log: Log): Log {
    match Crashed(log)
    case None => []
    case Some(c) => Closing(log, c)
  }

  lemma {:induction false} PhantomRowsAreCalls(session: nat, state: RunState, seqs: seq<nat>)
    ensures forall e <- PhantomRows(session, state, seqs) :: e.LlmCall? && e.phantom && e.tokens == 0 && e.cost == 0.0
    decreases |seqs|
  {
    if seqs != [] {
      PhantomRowsAreCalls(session, state, seqs[1..]);
    }
  }

  // Recovery writes calls marked as phantoms that were billed nothing, and then one end
  // that says the session crashed.
  lemma RecoveryRowsAre(log: Log)
    ensures var rows := RecoveryRows(log);
            && (forall i :: 0 <= i < |rows| - 1 ==>
                              rows[i].LlmCall? && rows[i].phantom && rows[i].tokens == 0 && rows[i].cost == 0.0)
            && (rows != [] ==> rows[|rows| - 1].SessionEnd? && rows[|rows| - 1].reason == "crash")
  {
    hide Crashed, PhantomRows, Phantoms, Fold, TotalsOf;
    if Crashed(log).Some? {
      var c := Crashed(log).value;
      var phantoms := PhantomRows(c, Fold(log), Phantoms(log, c));
      PhantomRowsAreCalls(c, Fold(log), Phantoms(log, c));
      assert forall i :: 0 <= i < |phantoms| ==> phantoms[i] in phantoms;
    }
  }

  // --- one more phantom row -----------------------------------------------------------

  lemma PhantomLeavesTheFold(log: Log, c: nat, q: nat)
    ensures var log' := log + [PhantomRow(c, Fold(log), q)];
            && Fold(log') == Fold(log).(counter := if Fold(log).counter < c then c else Fold(log).counter)
            && OpenSessions(log') == OpenSessions(log)
            && Started(log', c) == Started(log, c) && Completed(log', c) == Completed(log, c) + {q}
  {
    assert (log + [PhantomRow(c, Fold(log), q)])[..|log|] == log;
  }

  lemma PhantomRowsOf(session: nat, s: RunState, t: RunState, seqs: seq<nat>)
    requires s.cumulativeUsd == t.cumulativeUsd && s.cumulativeTokens == t.cumulativeTokens
    ensures PhantomRows(session, s, seqs) == PhantomRows(session, t, seqs)
  {
  }

  lemma OneLessPhantom(log: Log, c: nat)
    requires Phantoms(log, c) != []
    ensures Phantoms(log + [PhantomRow(c, Fold(log), Phantoms(log, c)[0])], c) == Phantoms(log, c)[1..]
  {
    hide Started, Completed, Fold;
    var unpaired := Started(log, c) - Completed(log, c);
    var q := Phantoms(log, c)[0];
    PhantomLeavesTheFold(log, c, q);
    assert unpaired != {} && q == Min(unpaired);
    assert Started(log, c) - (Completed(log, c) + {q}) == unpaired - {q};
  }

  // Dying after the first row and recovering again writes exactly the rest.
  lemma ClosingAfterOne(log: Log, c: nat)
    requires Phantoms(log, c) != []
    ensures Closing(log, c) == [Closing(log, c)[0]] + Closing(log + [Closing(log, c)[0]], c)
    ensures Crashed(log + [Closing(log, c)[0]]) == Crashed(log)
  {
    hide Phantoms, Fold, TotalsOf, OpenSessions;
    var q := Phantoms(log, c)[0];
    var row := PhantomRow(c, Fold(log), q);
    var log' := log + [row];
    var rest := PhantomRows(c, Fold(log), Phantoms(log, c)[1..]);
    OneLessPhantom(log, c);
    PhantomLeavesTheFold(log, c, q);
    PhantomRowsOf(c, Fold(log), Fold(log'), Phantoms(log, c)[1..]);
    assert PhantomRows(c, Fold(log), Phantoms(log, c)) == [row] + rest;
    assert log + ([row] + rest) == log' + rest;
  }

  // Recovery is confluent, on every log whatever: cut short after any k of its rows
  // before the last, the next recovery writes exactly the remaining ones.
  lemma {:induction false} RecoveryIsConfluent(log: Log, k: nat)
    requires Crashed(log).Some? && k < |RecoveryRows(log)|
    ensures RecoveryRows(log + RecoveryRows(log)[..k]) == RecoveryRows(log)[k..]
    ensures Crashed(log + RecoveryRows(log)[..k]) == Crashed(log)
    decreases k
  {
    hide PhantomRows, Phantoms, Fold, TotalsOf, Crashed;
    var rows := RecoveryRows(log);
    if k == 0 {
      assert log + rows[..0] == log;
    } else {
      var c := Crashed(log).value;
      ClosingIsNotOnlyTheEnd(log, c, k);
      ClosingAfterOne(log, c);
      var log' := log + [rows[0]];
      assert RecoveryRows(log') == rows[1..];
      RecoveryIsConfluent(log', k - 1);
      assert log' + rows[1..][..k - 1] == log + rows[..k];
      assert rows[1..][k - 1..] == rows[k..];
    }
  }

  lemma ClosingIsNotOnlyTheEnd(log: Log, c: nat, k: nat)
    requires 0 < k < |Closing(log, c)|
    ensures Phantoms(log, c) != []
  {
  }

  // The log after recoveries that each died before their last row.
  function Interrupted(log: Log, cuts: seq<nat>): Log
    decreases |cuts|
  {
    if cuts == [] then log else
      var rows := RecoveryRows(log);
      var cut := if cuts[0] < |rows| then cuts[0] else if rows == [] then 0 else |rows| - 1;
      Interrupted(log + rows[..cut], cuts[1..])
  }

  // However often recovery is interrupted, the one that finishes leaves the same log:
  // one phantom row per unpaired request and one crash end.
  lemma {:induction false} InterruptedRecoveryEndsTheSame(log: Log, cuts: seq<nat>)
    ensures var left := Interrupted(log, cuts);
            left + RecoveryRows(left) == log + RecoveryRows(log)
    decreases |cuts|
  {
    hide RecoveryRows;
    if cuts != [] {
      var rows := RecoveryRows(log);
      var cut := if cuts[0] < |rows| then cuts[0] else if rows == [] then 0 else |rows| - 1;
      if rows == [] {
        assert log + rows[..cut] == log;
      } else {
        OnlyCrashesAreRecovered(log);
        RecoveryIsConfluent(log, cut);
        assert log + rows[..cut] + rows[cut..] == log + rows;
      }
      InterruptedRecoveryEndsTheSame(log + rows[..cut], cuts[1..]);
    }
  }

  lemma OnlyCrashesAreRecovered(log: Log)
    requires RecoveryRows(log) != []
    ensures Crashed(log).Some?
  {
  }

  // --- what recovery does to the state ---------------------------------------------------

  lemma EndClosesIt(log: Log, c: nat, t: Totals)
    ensures OpenSessions(log + [SessionEnd(c, CRASH, t)]) == OpenSessions(log) - {c}
    ensures Fold(log + [SessionEnd(c, CRASH, t)])
            == Fold(log).(counter := if Fold(log).counter < c then c else Fold(log).counter)
  {
    assert (log + [SessionEnd(c, CRASH, t)])[..|log|] == log;
  }

  lemma {:induction false} PhantomRowsLeaveTheFold(log: Log, c: nat, state: RunState, seqs: seq<nat>)
    requires state.cumulativeUsd == Fold(log).cumulativeUsd && state.cumulativeTokens == Fold(log).cumulativeTokens
    requires c <= Fold(log).counter
    ensures Fold(log + PhantomRows(c, state, seqs)) == Fold(log)
    ensures OpenSessions(log + PhantomRows(c, state, seqs)) == OpenSessions(log)
    decreases |seqs|
  {
    hide Fold, OpenSessions;
    if seqs == [] {
      assert log + [] == log;
    } else {
      PhantomLeavesTheFold(log, c, seqs[0]);
      var log' := log + [PhantomRow(c, state, seqs[0])];
      PhantomRowsLeaveTheFold(log', c, state, seqs[1..]);
      assert log + PhantomRows(c, state, seqs) == log' + PhantomRows(c, state, seqs[1..]);
    }
  }

  lemma {:induction false} OpenSessionsAreCounted(log: Log, s: nat)
    requires s in OpenSessions(log)
    ensures s <= Fold(log).counter
  {
    if s in OpenSessions(log[..|log| - 1]) {
      OpenSessionsAreCounted(log[..|log| - 1], s);
    }
  }

  // A finished recovery closes the crashed session and changes no folded field.
  lemma RecoveryKeepsTheFold(log: Log)
    ensures Fold(log + RecoveryRows(log)) == Fold(log)
    ensures OpenSessions(log + RecoveryRows(log))
            == if Crashed(log).Some? then OpenSessions(log) - {Crashed(log).value} else OpenSessions(log)
  {
    hide Fold, OpenSessions, PhantomRows, Phantoms, TotalsOf;
    if Crashed(log).None? {
      assert log + [] == log;
    } else {
      var c := Crashed(log).value;
      var phantoms := PhantomRows(c, Fold(log), Phantoms(log, c));
      OpenSessionsAreCounted(log, c);
      PhantomRowsLeaveTheFold(log, c, Fold(log), Phantoms(log, c));
      EndClosesIt(log + phantoms, c, TotalsOf(log + phantoms, c));
      assert log + RecoveryRows(log) == log + phantoms + [SessionEnd(c, CRASH, TotalsOf(log + phantoms, c))];
    }
  }

  // On a well-formed log recovery writes at most one phantom row and one end, and the
  // log stays well-formed with no session open.
  lemma RecoveryIsWellFormed(budget: real, log: Log)
    requires WellFormed(budget, log) && !Observe(budget, log).value.complete
    ensures var o := Observe(budget, log).value;
            var log' := log + RecoveryRows(log);
            && |RecoveryRows(log)| == (if o.open.None? then 0 else if o.pending then 2 else 1)
            && WellFormed(budget, log')
            && Observe(budget, log').value.(totals := NO_TOTALS, pending := false, calls := 0)
               == o.(open := None, totals := NO_TOTALS, pending := false, calls := 0)
  {
    hide Fold, OpenSessions, Phantoms, TotalsOf, Observe;
    CrashedIsOpen(budget, log);
    FoldOfLog(budget, log);
    var o := Observe(budget, log).value;
    if o.open.None? {
      assert log + RecoveryRows(log) == log;
    } else {
      var c := o.open.value;
      PhantomsOfLog(budget, log);
      var row := PhantomRow(c, Fold(log), o.requests);
      var log1 := if o.pending then log + [row] else log;
      assert PhantomRows(c, Fold(log), Phantoms(log, c)) == if o.pending then [row] else [] by {
        assert PhantomRows(c, Fold(log), []) == [];
      }
      assert log1 == log + PhantomRows(c, Fold(log), Phantoms(log, c));
      if o.pending {
        ObserveOne(budget, log, row);
      }
      FoldOfLog(budget, log1);
      TotalsOfLastSession(budget, log1);
      ObserveOne(budget, log1, SessionEnd(c, CRASH, TotalsOf(log1, c)));
      assert log + RecoveryRows(log) == log1 + [SessionEnd(c, CRASH, TotalsOf(log1, c))];
    }
  }

  lemma RecoveryOfComplete(budget: real, log: Log)
    requires WellFormed(budget, log) && Observe(budget, log).value.complete
    ensures RecoveryRows(log) == []
  {
    CrashedIsOpen(budget, log);
    CompleteIsClosed(budget, log);
  }

  lemma CompleteIsClosed(budget: real, log: Log)
    requires WellFormed(budget, log) && Observe(budget, log).value.complete
    ensures Observe(budget, log).value.open.None?
    ensures log != [] && log[|log| - 1].RunComplete?
  {
  }
}
