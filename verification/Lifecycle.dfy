/**
 The session lifecycle (runner.py): each invocation of `run_session` or `end_run` is a
 program of effects computed from the log it finds, and it may die after any of them.
 */
module Lifecycle {
  import opened Options
  import opened Telemetry
  import opened Recovery
  import AgentLoop
  import Governor

  // An effect on durable state: one appended event, or one journal entry.
  datatype Effect = Emit(event: Event) | JournalEntry(session: nat)

  datatype Config = Config(budget: real, tMax: int, wakeDefault: int, shell: bool, keeper: bool)

  datatype Kind = Scheduled | Manual | EndRun

  datatype Harness = SpawnFails | PairingRefused | Serves

  // What one invocation meets: the lock, the clock at its start and when its session is
  // over, the prompt assets, the harness, the keeper's new receipts and calls, and the
  // oracles of the session it may run.
  datatype Inputs = Inputs(kind: Kind, lockHeld: bool, now: int, later: int, promptsPresent: bool, harness: Harness,
                           receipts: seq<string>, stopOk: bool, revokeOk: bool, env: AgentLoop.Env)

  datatype Outcome =
    | LockHeld | NotDue | AlreadyComplete | RunCompleted | SessionRan | SessionAborted
    | MissingPrompts | Refused       // raised to the caller

  datatype World = World(log: Log, journal: set<nat>)

  // --- effects ---------------------------------------------------------------------------

  function Emits(rows: Log): (effects: seq<Effect>)
    ensures |effects| == |rows|
    ensures forall i :: 0 <= i < |rows| ==> effects[i] == Emit(rows[i])
  {
    seq(|rows|, i requires 0 <= i < |rows| => Emit(rows[i]))
  }

  function Rows(effects: seq<Effect>): Log {
    if effects == [] then [] else
      var last := effects[|effects| - 1];
      Rows(effects[..|effects| - 1]) + if last.Emit? then [last.event] else []
  }

  function Journaled(effects: seq<Effect>): set<nat> {
    if effects == [] then {} else
      var last := effects[|effects| - 1];
      Journaled(effects[..|effects| - 1]) + if last.JournalEntry? then {last.session} else {}
  }

  function Apply(w: World, effects: seq<Effect>): World {
    World(w.log + Rows(effects), w.journal + Journaled(effects))
  }

  // --- the program of one invocation -------------------------------------------------------

  function RecoveryEffects(w: World): seq<Effect> {
    match Crashed(w.log)
    case None => []
    case Some(c) => Emits(RecoveryRows(w.log)) + if c in w.journal then [] else [JournalEntry(c)]
  }

  function KeeperRows(session: nat, receipts: seq<string>): (rows: Log)
    ensures |rows| == |receipts|
    ensures forall i :: 0 <= i < |rows| ==> rows[i] == KeeperRow(session, receipts[i])
  {
    seq(|receipts|, i requires 0 <= i < |receipts| => KeeperRow(session, receipts[i]))
  }

  const KEEPER_STOP_ALL := "keeper_stop_all"
  const KEEPER_REVOKE := "keeper_revoke"

  function EndOfRunRows(config: Config, inputs: Inputs, session: nat): Log {
    (if config.keeper then
       [ToolRow(session, None, KEEPER_STOP_ALL, false, inputs.stopOk, false, []),
        ToolRow(session, None, KEEPER_REVOKE, false, inputs.revokeOk, false, [])]
       + KeeperRows(session, inputs.receipts)
     else [])
    + if config.shell then [ShellState(session)] else []
  }

  // `log` is the log after recovery; `state` was folded before it.
  function CompletionRows(config: Config, inputs: Inputs, state: RunState, log: Log, reason: string): Log {
    EndOfRunRows(config, inputs, state.counter)
    + [RunComplete(state.counter, reason, state.counter, CountCalls(log), state.cumulativeUsd, state.cumulativeTokens,
                   Governor.OverspendUsd(state.cumulativeUsd, config.budget))]
  }

  function ReasonText(reason: AgentLoop.Reason): string {
    match reason
    case ByAgent => "agent"
    case TokenCap => "token_cap"
    case ToolCap => "tool_cap"
    case Errors => "errors"
    case RepetitionTripped => "repetition"
  }

  function StopText(reason: Governor.StopReason): string {
    match reason
    case Budget => "budget"
    case TMax => "t_max"
  }

  function AttendanceRows(config: Config, inputs: Inputs, session: nat): Log {
    (if config.shell then [ShellState(session)] else [])
    + if config.keeper then KeeperRows(session, inputs.receipts) else []
  }

  function OpeningRows(config: Config, inputs: Inputs, session: nat): Log {
    [SessionStart(session, inputs.now)] + AttendanceRows(config, inputs, session)
  }

  function SessionEnv(inputs: Inputs, session: nat): AgentLoop.Env {
    inputs.env.(session := session)
  }

  // The session of the loop, run on the log its opening rows leave.
  function Ran(config: Config, inputs: Inputs, state: RunState, log: Log): (AgentLoop.Session, AgentLoop.Reason) {
    AgentLoop.WholeSession(SessionEnv(inputs, state.counter + 1), log + OpeningRows(config, inputs, state.counter + 1),
                           state.cumulativeUsd, state.cumulativeTokens)
  }

  function WakeAt(config: Config, inputs: Inputs, wake: Option<int>): int {
    inputs.later + if wake.Some? then wake.value else config.wakeDefault
  }

  function ClosingRows(config: Config, session: nat, reason: AgentLoop.Reason, totals: Totals): Log {
    (if config.shell then [ShellState(session)] else []) + [SessionEnd(session, ReasonText(reason), totals)]
  }

  // The rows of a session whose harness did not come up: no model call, the default wake.
  function AbortRows(config: Config, inputs: Inputs, session: nat): Log {
    [SessionStart(session, inputs.now), SessionEnd(session, ReasonText(AgentLoop.Errors), NO_TOTALS),
     ScheduleNext(session, WakeAt(config, inputs, None))]
  }

  // The rows the loop appended to the log it was started on.
  function LoopRows(before: Log, after: Log): Log
    requires |before| <= |after|
  {
    after[|before|..]
  }

  function SessionEffects(config: Config, inputs: Inputs, state: RunState, log: Log): seq<Effect> {
    var session := state.counter + 1;
    if !inputs.promptsPresent then []
    else
      match inputs.harness
      case SpawnFails =>
        Emits(AbortRows(config, inputs, session))
      case PairingRefused => [Emit(SessionRefused(session - 1))]
      case Serves =>
        var begun := log + OpeningRows(config, inputs, session);
        var (s, reason) := Ran(config, inputs, state, log);
        AgentLoop.SessionExtends(SessionEnv(inputs, session), begun, state.cumulativeUsd, state.cumulativeTokens);
        Emits(OpeningRows(config, inputs, session) + LoopRows(begun, s.log)
              + ClosingRows(config, session, reason, AgentLoop.LoopTotals(s)))
        + [JournalEntry(session), Emit(ScheduleNext(session, WakeAt(config, inputs, s.wake)))]
  }

  // Why the run stops at this session boundary, if it does.
  function Stop(config: Config, inputs: Inputs, state: RunState): Option<Governor.StopReason> {
    Governor.BoundaryCheck(state.cumulativeUsd, config.budget, state.firstSessionAt, config.tMax, inputs.now)
  }

  // What follows a finished recovery.
  function MainEffects(config: Config, inputs: Inputs, state: RunState, log: Log): seq<Effect> {
    if inputs.kind == EndRun then Emits(CompletionRows(config, inputs, state, log, "manual"))
    else
      match Stop(config, inputs, state)
      case Some(reason) => Emits(CompletionRows(config, inputs, state, log, StopText(reason)))
      case None => SessionEffects(config, inputs, state, log)
  }

  predicate Due(inputs: Inputs, state: RunState) {
    inputs.kind != Scheduled || state.nextWakeAt.None? || inputs.now >= state.nextWakeAt.value
  }

  function Invocation(config: Config, inputs: Inputs, w: World): seq<Effect> {
    var state := Fold(w.log);
    if inputs.lockHeld || !Due(inputs, state) then []
    else if state.complete then RecoveryEffects(w)
    else RecoveryEffects(w) + MainEffects(config, inputs, state, w.log + RecoveryRows(w.log))
  }

  function Result(config: Config, inputs: Inputs, w: World): Outcome {
    var state := Fold(w.log);
    if inputs.lockHeld then LockHeld
    else if !Due(inputs, state) then NotDue
    else if state.complete then AlreadyComplete
    else if inputs.kind == EndRun then RunCompleted
    else MainResult(config, inputs, state)
  }

  function MainResult(config: Config, inputs: Inputs, state: RunState): Outcome {
    if Stop(config, inputs, state).Some?
    then RunCompleted
    else if !inputs.promptsPresent then MissingPrompts
    else
      match inputs.harness
      case SpawnFails => SessionAborted
      case PairingRefused => Refused
      case Serves => SessionRan
  }

  // A run: invocations in turn, each cut after `cut` effects (or not at all).
  datatype Attempt = Attempt(inputs: Inputs, cut: nat)

  function Done(config: Config, a: Attempt, w: World): seq<Effect> {
    var program := Invocation(config, a.inputs, w);
    if a.cut < |program| then program[..a.cut] else program
  }

  function After(config: Config, attempts: seq<Attempt>): World {
    if attempts == [] then World([], {}) else
      var w := After(config, attempts[..|attempts| - 1]);
      Apply(w, Done(config, attempts[|attempts| - 1], w))
  }
}
