/**
 A well-formed run log, as an automaton over its events: which row may follow which,
 and with which numbers.  `Observe` is prefix-closed by construction, so a log that a
 dying process cut short anywhere is judged by the same rules.
 */
module Observer {
  import opened Options
  import opened Telemetry
  import Governor

  // `usdAtStart` is the spend when the last session was started; `totals` are that
  // session's so far.
  datatype Seen = Seen(counter: nat, open: Option<nat>, requests: nat, pending: bool, usd: real, tokens: int,
                       calls: nat, usdAtStart: real, totals: Totals, complete: bool)

  const NOTHING := Seen(0, None, 0, false, 0.0, 0, 0, 0.0, NO_TOTALS, false)

  // In the open session, or between sessions under the last session's number.
  predicate InOrAfter(o: Seen, session: nat) {
    o.open == Some(session) || (o.open.None? && session == o.counter)
  }

  predicate Allowed(budget: real, o: Seen, e: Event) {
    && !o.complete
    && match e
       case SessionStart(s, _) => o.open.None? && s == o.counter + 1 && o.usd < budget
       case SessionRefused(s) => o.open.None? && s == o.counter
       case LlmRequest(s, q) => o.open == Some(s) && !o.pending && q == o.requests + 1
       case LlmCall(s, q, t, c, usd, tokens, _) =>
         o.open == Some(s) && o.pending && q == o.requests && usd == o.usd + c && tokens == o.tokens + t
       case ToolRow(s, n, _, byModel, _, _, _) =>
         || (o.open == Some(s) && n == Some(o.totals.toolCalls + 1))
         || (o.open.None? && s == o.counter && n.None? && !byModel)
       case WorkspaceRow(s) => o.open == Some(s)
       case ShellState(s) => InOrAfter(o, s)
       case KeeperRow(s, _) => InOrAfter(o, s)
       case SessionEnd(s, _, t) => o.open == Some(s) && !o.pending && t == o.totals
       case ScheduleNext(s, _) => o.open.None? && s == o.counter
       case RunComplete(s, _, sessions, calls, usd, tokens, over) =>
         && o.open.None? && s == o.counter == sessions && calls == o.calls && usd == o.usd && tokens == o.tokens
         && over == Governor.OverspendUsd(o.usd, budget)
  }

  function Next(o: Seen, e: Event): Seen {
    match e
    case SessionStart(s, _) =>
      o.(counter := s, open := Some(s), requests := 0, pending := false, usdAtStart := o.usd, totals := NO_TOTALS)
    case LlmRequest(_, q) => o.(requests := q, pending := true)
    case LlmCall(_, _, t, c, _, _, _) =>
      o.(pending := false, usd := o.usd + c, tokens := o.tokens + t, calls := o.calls + 1,
         totals := Totals(o.totals.llmCalls + 1, o.totals.toolCalls, o.totals.cost + c, o.totals.tokens + t))
    case ToolRow(_, _, _, _, _, _, _) =>
      if o.open.Some? then o.(totals := o.totals.(toolCalls := o.totals.toolCalls + 1)) else o
    case SessionEnd(_, _, _) => o.(open := None)
    case RunComplete(_, _, _, _, _, _, _) => o.(complete := true)
    case _ => o
  }

  function Observe(budget: real, log: Log): Option<Seen> {
    if log == [] then Some(NOTHING) else
      var before := Observe(budget, log[..|log| - 1]);
      if before.Some? && Allowed(budget, before.value, log[|log| - 1])
      then Some(Next(before.value, log[|log| - 1])) else None
  }

  predicate WellFormed(budget: real, log: Log) {
    Observe(budget, log).Some?
  }

  lemma ObserveOne(budget: real, log: Log, e: Event)
    requires WellFormed(budget, log) && Allowed(budget, Observe(budget, log).value, e)
    ensures Observe(budget, log + [e]) == Some(Next(Observe(budget, log).value, e))
  {
    assert (log + [e])[..|log|] == log;
  }

  lemma {:induction false} PrefixesAreWellFormed(budget: real, log: Log, k: nat)
    requires WellFormed(budget, log) && k <= |log|
    ensures WellFormed(budget, log[..k])
    ensures k < |log| ==> Allowed(budget, Observe(budget, log[..k]).value, log[k])
  {
    if k == |log| {
      assert log[..k] == log;
    } else if k < |log| - 1 {
      PrefixesAreWellFormed(budget, log[..|log| - 1], k);
      assert log[..|log| - 1][..k] == log[..k];
    }
  }

  // --- the folds of a well-formed log ---------------------------------------------------

  lemma {:induction false} FoldOfLog(budget: real, log: Log)
    requires WellFormed(budget, log)
    ensures var o := Observe(budget, log).value;
            && Fold(log).counter == o.counter && Fold(log).cumulativeUsd == o.usd
            && Fold(log).cumulativeTokens == o.tokens && Fold(log).complete == o.complete
            && CountCalls(log) == o.calls
            && (o.open.Some? ==> o.open.value == o.counter > 0)
            && o.usd == o.usdAtStart + o.totals.cost
            && (o.counter > 0 ==> o.usdAtStart < budget)
            && (o.counter == 0 ==> o.usd == 0.0 && o.totals == NO_TOTALS)
  {
    if log != [] {
      FoldOfLog(budget, log[..|log| - 1]);
    }
  }

  // At most one session is open, and it is the one recovery would close.
  lemma {:induction false} OneOpenSession(budget: real, log: Log)
    requires WellFormed(budget, log)
    ensures var o := Observe(budget, log).value;
            OpenSessions(log) == if o.open.Some? then {o.open.value} else {}
  {
    if log != [] {
      OneOpenSession(budget, log[..|log| - 1]);
    }
  }

  lemma CrashedIsOpen(budget: real, log: Log)
    requires WellFormed(budget, log)
    ensures Crashed(log) == Observe(budget, log).value.open
  {
    OneOpenSession(budget, log);
  }

  lemma {:induction false} NumbersUpToCounter(budget: real, log: Log, i: nat)
    requires WellFormed(budget, log) && i < |log|
    ensures log[i].session <= Observe(budget, log).value.counter
  {
    hide TotalsOf, Fold, CountCalls;
    FoldOfLog(budget, log[..|log| - 1]);
    if i < |log| - 1 {
      NumbersUpToCounter(budget, log[..|log| - 1], i);
    }
  }

  // A number above every number in the log has nothing recorded under it.
  lemma {:induction false} NothingUnder(log: Log, s: nat)
    requires forall i :: 0 <= i < |log| ==> log[i].session != s
    ensures Started(log, s) == {} && Completed(log, s) == {} && TotalsOf(log, s) == NO_TOTALS
  {
    if log != [] {
      NothingUnder(log[..|log| - 1], s);
    }
  }

  function UpTo(n: nat): set<nat> {
    if n == 0 then {} else UpTo(n - 1) + {n}
  }

  lemma {:induction false} UpToBounds(n: nat)
    ensures forall q :: q in UpTo(n) <==> 1 <= q <= n
  {
    if n > 0 {
      UpToBounds(n - 1);
    }
  }

  lemma NewSessionIsBlank(budget: real, log: Log, s: nat)
    requires WellFormed(budget, log) && s > Observe(budget, log).value.counter
    ensures Started(log, s) == {} && Completed(log, s) == {} && TotalsOf(log, s) == NO_TOTALS
  {
    forall i | 0 <= i < |log|
      ensures log[i].session != s
    {
      NumbersUpToCounter(budget, log, i);
    }
    NothingUnder(log, s);
  }

  // One more row under the last session's number.
  lemma RequestsStep(log: Log, s: nat)
    requires log != []
    ensures var e := log[|log| - 1];
            && Started(log, s)
               == Started(log[..|log| - 1], s) + (if e.LlmRequest? && e.session == s then {e.seqNo} else {})
            && Completed(log, s)
               == Completed(log[..|log| - 1], s) + (if e.LlmCall? && e.session == s then {e.seqNo} else {})
  {
  }

  // The requests of the last session are numbered 1, 2, 3, ..., and every one but
  // possibly the latest is completed.
  lemma {:induction false} RequestsOfLastSession(budget: real, log: Log)
    requires WellFormed(budget, log) && Observe(budget, log).value.counter > 0
    ensures var o := Observe(budget, log).value;
            && (o.pending ==> o.requests > 0)
            && Started(log, o.counter) == UpTo(o.requests)
            && Completed(log, o.counter) == UpTo(if o.pending then o.requests - 1 else o.requests)
  {
    hide TotalsOf, Fold, CountCalls, Started, Completed;
    var n := |log| - 1;
    RequestsStep(log, Observe(budget, log).value.counter);
    if log[n].SessionStart? {
      NewSessionIsBlank(budget, log[..n], log[n].session);
    } else {
      FoldOfLog(budget, log[..n]);
      RequestsOfLastSession(budget, log[..n]);
    }
  }

  // The last session's totals are what the fold computes, up to the keeper rows that
  // the end of the run may add under its number.
  lemma {:induction false} TotalsOfLastSession(budget: real, log: Log)
    requires WellFormed(budget, log) && Observe(budget, log).value.counter > 0
    ensures var o := Observe(budget, log).value;
            && TotalsOf(log, o.counter).(toolCalls := 0) == o.totals.(toolCalls := 0)
            && (o.open.Some? ==> TotalsOf(log, o.counter) == o.totals)
  {
    var n := |log| - 1;
    FoldOfLog(budget, log[..n]);
    if log[n].SessionStart? {
      NewSessionIsBlank(budget, log[..n], log[n].session);
    } else {
      TotalsOfLastSession(budget, log[..n]);
    }
  }

  // Only the latest request of the open session can be unpaired.
  lemma PhantomsOfLog(budget: real, log: Log)
    requires WellFormed(budget, log) && Observe(budget, log).value.open.Some?
    ensures var o := Observe(budget, log).value;
            Phantoms(log, o.open.value) == if o.pending then [o.requests] else []
  {
    FoldOfLog(budget, log);
    RequestsOfLastSession(budget, log);
    var o := Observe(budget, log).value;
    UpToBounds(o.requests);
    UpToBounds(if o.pending then o.requests - 1 else o.requests);
    var unpaired := Started(log, o.counter) - Completed(log, o.counter);
    if o.pending {
      assert unpaired == {o.requests};
      assert Sorted({o.requests}) == [o.requests] + Sorted({o.requests} - {o.requests});
    } else {
      assert unpaired == {};
    }
  }

  // --- what a well-formed log says -----------------------------------------------------

  // A session starts under a number above every number recorded before it.
  lemma NumbersAreNew(budget: real, log: Log, i: nat, j: nat)
    requires WellFormed(budget, log) && i < j < |log| && log[j].SessionStart?
    ensures log[i].session < log[j].session
  {
    PrefixesAreWellFormed(budget, log, j);
    NumbersUpToCounter(budget, log[..j], i);
  }

  function Starts(log: Log, s: nat): nat {
    if log == [] then 0 else
      Starts(log[..|log| - 1], s) + if log[|log| - 1].SessionStart? && log[|log| - 1].session == s then 1 else 0
  }

  function Ends(log: Log, s: nat): nat {
    if log == [] then 0 else
      Ends(log[..|log| - 1], s) + if log[|log| - 1].SessionEnd? && log[|log| - 1].session == s then 1 else 0
  }

  // Every session is started at most once, and it has exactly one end unless it is
  // the one session still open.
  lemma {:induction false} OneEndEach(budget: real, log: Log, s: nat)
    requires WellFormed(budget, log)
    ensures var o := Observe(budget, log).value;
            && Starts(log, s) == (if 1 <= s <= o.counter then 1 else 0)
            && Ends(log, s) + (if o.open == Some(s) then 1 else 0) == Starts(log, s)
  {
    hide TotalsOf, Fold, CountCalls;
    if log != [] {
      OneEndEach(budget, log[..|log| - 1], s);
      FoldOfLog(budget, log[..|log| - 1]);
    }
  }

  // Nothing follows the end of the run, so there is at most one.
  lemma RunCompleteIsLast(budget: real, log: Log, i: nat)
    requires WellFormed(budget, log) && i < |log| && log[i].RunComplete?
    ensures i == |log| - 1
  {
    if i + 1 < |log| {
      assert log[..i + 1][..i] == log[..i];
      PrefixesAreWellFormed(budget, log, i);
      PrefixesAreWellFormed(budget, log, i + 1);
    }
  }

  // Every llm_call completes an earlier request of its own session and number, which
  // no earlier llm_call completed.
  lemma CallsArePaired(budget: real, log: Log, i: nat)
    requires WellFormed(budget, log) && i < |log| && log[i].LlmCall?
    ensures log[i].seqNo in Started(log[..i], log[i].session)
    ensures log[i].seqNo !in Completed(log[..i], log[i].session)
  {
    PrefixesAreWellFormed(budget, log, i);
    FoldOfLog(budget, log[..i]);
    RequestsOfLastSession(budget, log[..i]);
    UpToBounds(Observe(budget, log[..i]).value.requests);
    UpToBounds(Observe(budget, log[..i]).value.requests - 1);
  }

  // In every session the requests are numbered 1, 2, 3, ... in order, and each is made
  // only when all the earlier ones are completed.
  lemma RequestsAreNumbered(budget: real, log: Log, i: nat)
    requires WellFormed(budget, log) && i < |log| && log[i].LlmRequest?
    ensures log[i].seqNo >= 1
    ensures Started(log[..i], log[i].session) == Completed(log[..i], log[i].session) == UpTo(log[i].seqNo - 1)
  {
    hide Started, Completed, UpTo;
    PrefixesAreWellFormed(budget, log, i);
    FoldOfLog(budget, log[..i]);
    RequestsOfLastSession(budget, log[..i]);
  }

  // The running totals written on a row are the fold of the log up to that row.
  lemma LiveAccountingIsTheFold(budget: real, log: Log, i: nat)
    requires WellFormed(budget, log) && i < |log|
    ensures log[i].LlmCall? ==>
              && log[i].cumulativeUsd == Fold(log[..i + 1]).cumulativeUsd
              && log[i].cumulativeTokens == Fold(log[..i + 1]).cumulativeTokens
    ensures log[i].SessionEnd? ==> log[i].totals == TotalsOf(log[..i], log[i].session)
    ensures log[i].RunComplete? ==>
              && log[i].cumulativeUsd == Fold(log[..i]).cumulativeUsd
              && log[i].cumulativeTokens == Fold(log[..i]).cumulativeTokens
              && log[i].llmCalls == CountCalls(log[..i]) && log[i].sessions == Fold(log[..i]).counter
  {
    PrefixesAreWellFormed(budget, log, i);
    FoldOfLog(budget, log[..i]);
    assert log[..i + 1][..i] == log[..i];
    if log[i].SessionEnd? {
      TotalsOfLastSession(budget, log[..i]);
    }
  }

  // The overspend at the end of the run never exceeds what the last session cost:
  // the boundary is tested only when a session starts.  A run that never started a
  // session stays within the bound exactly when its budget is not negative.
  lemma OverspendIsOneSession(budget: real, log: Log, i: nat)
    requires WellFormed(budget, log) && i < |log| && log[i].RunComplete?
    requires forall k :: 0 <= k < |log| && log[k].LlmCall? ==> log[k].cost >= 0.0
    ensures log[i].overspend <= TotalsOf(log[..i], log[i].session).cost
            <==> (budget >= 0.0 || Fold(log[..i]).counter > 0)
  {
    PrefixesAreWellFormed(budget, log, i);
    FoldOfLog(budget, log[..i]);
    CostsAddUp(log[..i], log[i].session);
    if Observe(budget, log[..i]).value.counter == 0 {
      NewSessionTotals(log[..i], budget);
    } else {
      TotalsOfLastSession(budget, log[..i]);
    }
  }

  lemma {:induction false} NewSessionTotals(log: Log, budget: real)
    requires WellFormed(budget, log) && Observe(budget, log).value.counter == 0
    ensures TotalsOf(log, 0).cost == 0.0
  {
    if log != [] {
      FoldOfLog(budget, log[..|log| - 1]);
      NewSessionTotals(log[..|log| - 1], budget);
    }
  }

  lemma {:induction false} CostsAddUp(log: Log, s: nat)
    requires forall k :: 0 <= k < |log| && log[k].LlmCall? ==> log[k].cost >= 0.0
    ensures TotalsOf(log, s).cost >= 0.0
  {
    if log != [] {
      CostsAddUp(log[..|log| - 1], s);
    }
  }
}
