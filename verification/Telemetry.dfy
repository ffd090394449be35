/**
 The event log and the folds that rebuild everything from it (telemetry.py, state.py).
 */
module Telemetry {
  import opened Options

  // What a session_end row carries, and what `session_totals` recomputes.
  datatype Totals = Totals(llmCalls: nat, toolCalls: nat, cost: real, tokens: int)

  const NO_TOTALS := Totals(0, 0, 0.0, 0)

  // `byModel` is the row's initiator; `hashes` are the transaction hashes it carries;
  // `callSeq` is absent on the two keeper rows written when the run ends.
  datatype Event =
    | SessionStart(session: nat, ts: int)
    | SessionRefused(session: nat)
    | LlmRequest(session: nat, seqNo: nat)
    | LlmCall(session: nat, seqNo: nat, tokens: int, cost: real, cumulativeUsd: real, cumulativeTokens: int,
              phantom: bool)
    | ToolRow(session: nat, callSeq: Option<nat>, tool: string, byModel: bool, ok: bool, skipped: bool,
              hashes: seq<string>)
    | WorkspaceRow(session: nat)
    | ShellState(session: nat)
    | KeeperRow(session: nat, hash: string)
    | SessionEnd(session: nat, reason: string, totals: Totals)
    | ScheduleNext(session: nat, wakeAt: int)
    | RunComplete(session: nat, reason: string, sessions: nat, llmCalls: nat, cumulativeUsd: real,
                  cumulativeTokens: int, overspend: real)

  type Log = seq<Event>

  class TelemetryWriter {
    var log: Log

    constructor (log: Log)
      ensures this.log == log
    {
      this.log := log;
    }

    method Emit(e: Event)
      modifies this
      ensures log == old(log) + [e]
    {
      log := log + [e];
    }
  }

  // --- folding the accounting ---------------------------------------------------------

  datatype RunState = RunState(counter: nat, cumulativeUsd: real, cumulativeTokens: int,
                               firstSessionAt: Option<int>, nextWakeAt: Option<int>, complete: bool)

  const FRESH := RunState(0, 0.0, 0, None, None, false)

  function FoldEvent(s: RunState, e: Event): RunState {
    var s := s.(counter := if s.counter < e.session then e.session else s.counter);
    match e
    case LlmCall(_, _, tokens, cost, _, _, _) =>
      s.(cumulativeUsd := s.cumulativeUsd + cost, cumulativeTokens := s.cumulativeTokens + tokens)
    case SessionStart(_, ts) => if s.firstSessionAt.None? then s.(firstSessionAt := Some(ts)) else s
    case ScheduleNext(_, wakeAt) => s.(nextWakeAt := Some(wakeAt))
    case RunComplete(_, _, _, _, _, _, _) => s.(complete := true)
    case _ => s
  }

  function Fold(log: Log): RunState {
    if log == [] then FRESH else FoldEvent(Fold(log[..|log| - 1]), log[|log| - 1])
  }

  method FoldTelemetry(events: Log) returns (state: RunState)
    ensures state == Fold(events)
  {
    state := FRESH;
    for i := 0 to |events|
      invariant state == Fold(events[..i])
    {
      assert events[..i + 1][..i] == events[..i];
      var e := events[i];
      if state.counter < e.session {
        state := state.(counter := e.session);
      }
      if e.LlmCall? {
        state := state.(cumulativeUsd := state.cumulativeUsd + e.cost,
                        cumulativeTokens := state.cumulativeTokens + e.tokens);
      } else if e.SessionStart? && state.firstSessionAt.None? {
        state := state.(firstSessionAt := Some(e.ts));
      } else if e.ScheduleNext? {
        state := state.(nextWakeAt := Some(e.wakeAt));
      } else if e.RunComplete? {
        state := state.(complete := true);
      }
    }
    assert events[..|events|] == events;
  }

  // --- the session that died -------------------------------------------------------------

  function OpenSessions(log: Log): set<nat> {
    if log == [] then {} else
      var before := OpenSessions(log[..|log| - 1]);
      match log[|log| - 1]
      case SessionStart(s, _) => before + {s}
      case SessionEnd(s, _, _) => before - {s}
      case _ => before
  }

  function Max(s: set<nat>): (m: nat)
    requires s != {}
    ensures IsMax(m, s)
  {
    MaxExists(s);
    var m :| IsMax(m, s);
    m
  }

  predicate IsMax(m: nat, s: set<nat>) {
    m in s && forall x :: x in s ==> x <= m
  }

  lemma {:induction false} MaxExists(s: set<nat>)
    requires s != {}
    ensures exists m :: IsMax(m, s)
  {
    var x :| x in s;
    var rest := s - {x};
    var m := x;
    if rest != {} {
      MaxExists(rest);
      m :| IsMax(m, rest);
    }
    var top := if x < m then m else x;
    assert s == rest + {x};
    assert IsMax(top, s);
  }

  function Crashed(log: Log): Option<nat> {
    if OpenSessions(log) == {} then None else Some(Max(OpenSessions(log)))
  }

  method CrashedSession(events: Log) returns (crashed: Option<nat>)
    ensures crashed == Crashed(events)
  {
    var open: set<nat> := {};
    for i := 0 to |events|
      invariant open == OpenSessions(events[..i])
    {
      assert events[..i + 1][..i] == events[..i];
      if events[i].SessionStart? {
        open := open + {events[i].session};
      } else if events[i].SessionEnd? {
        open := open - {events[i].session};
      }
    }
    assert events[..|events|] == events;
    crashed := if open == {} then None else Some(Max(open));
  }

  // --- requests that never completed -------------------------------------------------------

  function Started(log: Log, session: nat): set<nat> {
    if log == [] then {} else
      var e := log[|log| - 1];
      Started(log[..|log| - 1], session) + if e.LlmRequest? && e.session == session then {e.seqNo} else {}
  }

  function Completed(log: Log, session: nat): set<nat> {
    if log == [] then {} else
      var e := log[|log| - 1];
      Completed(log[..|log| - 1], session) + if e.LlmCall? && e.session == session then {e.seqNo} else {}
  }

  function Min(s: set<nat>): (m: nat)
    requires s != {}
    ensures IsMin(m, s)
  {
    MinExists(s);
    var m :| IsMin(m, s);
    m
  }

  predicate IsMin(m: nat, s: set<nat>) {
    m in s && forall x :: x in s ==> m <= x
  }

  lemma {:induction false} MinExists(s: set<nat>)
    requires s != {}
    ensures exists m :: IsMin(m, s)
  {
    var x :| x in s;
    var rest := s - {x};
    var m := x;
    if rest != {} {
      MinExists(rest);
      m :| IsMin(m, rest);
    }
    var top := if x < m then x else m;
    assert s == rest + {x};
    assert IsMin(top, s);
  }

  function Sorted(s: set<nat>): seq<nat> {
    if s == {} then [] else [Min(s)] + Sorted(s - {Min(s)})
  }

  function Phantoms(log: Log, session: nat): seq<nat> {
    Sorted(Started(log, session) - Completed(log, session))
  }

  method PhantomRequests(events: Log, session: nat) returns (seqs: seq<nat>)
    ensures seqs == Phantoms(events, session)
  {
    var started: set<nat>, completed: set<nat> := {}, {};
    for i := 0 to |events|
      invariant started == Started(events[..i], session)
      invariant completed == Completed(events[..i], session)
    {
      assert events[..i + 1][..i] == events[..i];
      if events[i].session != session {
        continue;
      }
      if events[i].LlmRequest? {
        started := started + {events[i].seqNo};
      } else if events[i].LlmCall? {
        completed := completed + {events[i].seqNo};
      }
    }
    assert events[..|events|] == events;
    seqs := Sorted(started - completed);
  }

  // --- one session's totals ----------------------------------------------------------------

  function TotalsOf(log: Log, session: nat): Totals {
    if log == [] then NO_TOTALS else
      var t := TotalsOf(log[..|log| - 1], session);
      var e := log[|log| - 1];
      if e.session != session then t
      else if e.LlmCall? then Totals(t.llmCalls + 1, t.toolCalls, t.cost + e.cost, t.tokens + e.tokens)
      else if e.ToolRow? then t.(toolCalls := t.toolCalls + 1)
      else t
  }

  method SessionTotals(events: Log, session: nat) returns (totals: Totals)
    ensures totals == TotalsOf(events, session)
  {
    totals := NO_TOTALS;
    for i := 0 to |events|
      invariant totals == TotalsOf(events[..i], session)
    {
      assert events[..i + 1][..i] == events[..i];
      var e := events[i];
      if e.session != session {
        continue;
      }
      if e.LlmCall? {
        totals := Totals(totals.llmCalls + 1, totals.toolCalls, totals.cost + e.cost, totals.tokens + e.tokens);
      } else if e.ToolRow? {
        totals := totals.(toolCalls := totals.toolCalls + 1);
      }
    }
    assert events[..|events|] == events;
  }

  function CountCalls(log: Log): nat {
    if log == [] then 0 else CountCalls(log[..|log| - 1]) + if log[|log| - 1].LlmCall? then 1 else 0
  }
}
