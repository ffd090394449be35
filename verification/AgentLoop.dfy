/**
 One session's alternation of model calls and tool executions (loop.py).

 The adapter and the tools are arbitrary oracles: `adapter(n)` is what the n-th model
 request of the session gets back, `tools(n)` is how the n-th executed intent ends.
 Each method of `AgentLoop` is proved equal to a function on `Session` values.
 */
module AgentLoop {
  import opened Options
  import opened Conversation
  import opened Telemetry
  import Governor
  import Repetition

  datatype Response =
    Response(texts: seq<string>, calls: seq<ToolCall>, usage: Governor.Usage, state: Option<ProviderState>)

  datatype Answer =
    | Answered(response: Response)
    | ProviderError(retryable: bool)
    | Fault                          // an exception the adapter did not normalize

  // How one executed intent ended.  `revertShaped` is the classifier's verdict on a
  // successful result; `wrote` says that the tool emitted a workspace row.
  datatype Outcome = Outcome(content: string, ok: bool, txHash: Option<string>, txs: seq<Option<string>>,
                             revertShaped: bool, wrote: bool)

  datatype Injection = Injection(call: ToolCall, content: string, ok: bool)

  datatype Caps = Caps(sessionTokens: int, sessionTools: int, consecutiveErrors: int, retries: int,
                       limits: Repetition.Limits, wakeMin: int, wakeMax: int)

  // `wakeOf` is the requested delay of a valid set_next_wake intent.
  datatype Env = Env(session: nat, caps: Caps, prices: Governor.Prices, kickoff: string, continuation: string,
                     injections: seq<Injection>, adapter: nat -> Answer, tools: nat -> Outcome,
                     wakeOf: ToolCall -> Option<int>, signature: ToolCall -> string)

  datatype Reason = ByAgent | TokenCap | ToolCap | Errors | RepetitionTripped

  datatype Carried = NotCarried | Applied | Invalid

  const WAIT := "wait"
  const END_SESSION := "end_session"
  const SET_NEXT_WAKE := "set_next_wake"

  // `sent` records the history of every model request, as the adapter received it.
  datatype Session = Session(
    messages: seq<Message>, log: Log, sent: seq<seq<Message>>,
    requestSeq: nat, callSeq: nat, executed: nat, errors: nat,
    llmCalls: nat, toolRows: nat, cost: real, tokens: nat, cumulativeUsd: real, cumulativeTokens: int,
    history: seq<Repetition.Call>, ended: bool, wake: Option<int>, carried: Carried,
    journalTools: multiset<string>, journalTxs: seq<string>)

  function LoopTotals(s: Session): Totals {
    Totals(s.llmCalls, s.toolRows, s.cost, s.tokens)
  }

  // --- model calls ----------------------------------------------------------------------

  // The write-ahead row, then the request itself.
  function Request(env: Env, s: Session): Session {
    s.(requestSeq := s.requestSeq + 1,
       log := s.log + [LlmRequest(env.session, s.requestSeq + 1)],
       sent := s.sent + [s.messages])
  }

  function Counted(s: Session, tokens: nat, cost: real): Session {
    s.(llmCalls := s.llmCalls + 1, cost := s.cost + cost, tokens := s.tokens + tokens,
       cumulativeUsd := s.cumulativeUsd + cost, cumulativeTokens := s.cumulativeTokens + tokens)
  }

  // The counters, then the llm_call row with the new running totals.
  function Billed(env: Env, s: Session, tokens: nat, cost: real): Session {
    var s := Counted(s, tokens, cost);
    s.(log := s.log + [LlmCall(env.session, s.requestSeq, tokens, cost, s.cumulativeUsd, s.cumulativeTokens, false)])
  }

  predicate IsEmpty(r: Response) {
    r.texts == [] && r.calls == [] && r.usage.input == 0 && r.usage.output == 0
  }

  predicate IsUseful(answer: Answer) {
    answer.Answered? && !IsEmpty(answer.response)
  }

  predicate GivesUp(env: Env, answer: Answer, attempt: nat) {
    answer.Fault? || (answer.ProviderError? && !answer.retryable) || attempt >= env.caps.retries
  }

  // One attempt: the write-ahead row, the request, and the row of its outcome.
  function Attempt(env: Env, s: Session): Session {
    var s := Request(env, s);
    var answer := env.adapter(s.requestSeq);
    if IsUseful(answer)
    then var u := answer.response.usage; Billed(env, s, u.input + u.output, Governor.CostUsd(u, env.prices))
    else Billed(env, s, 0, 0.0)
  }

  function AskModel(env: Env, s: Session, attempt: nat): (Session, Option<Response>)
    decreases env.caps.retries - attempt
  {
    var answer := env.adapter(s.requestSeq + 1);
    var s := Attempt(env, s);
    if IsUseful(answer) then (s, Some(answer.response))
    else if GivesUp(env, answer, attempt) then (s, None)
    else AskModel(env, s, attempt + 1)
  }

  // --- tool execution -----------------------------------------------------------------------

  function HashesOf(o: Outcome): seq<string> {
    NonEmpty([o.txHash] + o.txs)
  }

  function NonEmpty(candidates: seq<Option<string>>): seq<string> {
    if candidates == [] then [] else
      var c := candidates[|candidates| - 1];
      NonEmpty(candidates[..|candidates| - 1]) + if c.Some? && c.value != "" then [c.value] else []
  }

  // Order kept, duplicates dropped.
  function Collect(known: seq<string>, hashes: seq<string>): seq<string> {
    if hashes == [] then known else
      var before := Collect(known, hashes[..|hashes| - 1]);
      var h := hashes[|hashes| - 1];
      if h in before then before else before + [h]
  }

  function Clamp(v: int, lo: int, hi: int): int {
    var atLeast := if v < lo then lo else v;
    if atLeast > hi then hi else atLeast
  }

  // The value itself between the bounds, and otherwise the bound it is beyond; of bounds
  // that are in the wrong order, the upper one.
  lemma ClampIsNearest(v: int, lo: int, hi: int)
    ensures lo <= v <= hi ==> Clamp(v, lo, hi) == v
    ensures v < lo <= hi ==> Clamp(v, lo, hi) == lo
    ensures hi < v || hi < lo ==> Clamp(v, lo, hi) == hi
  {
  }

  function SetWake(env: Env, s: Session, call: ToolCall): Session {
    match env.wakeOf(call)
    case None => s
    case Some(minutes) => s.(wake := Some(Clamp(minutes, env.caps.wakeMin, env.caps.wakeMax)))
  }

  // One tool_call row, numbered.
  function Row(env: Env, s: Session, call: ToolCall, byModel: bool, ok: bool, skipped: bool,
               hashes: seq<string>): Session {
    s.(callSeq := s.callSeq + 1, toolRows := s.toolRows + 1,
       log := s.log + [ToolRow(env.session, Some(s.callSeq + 1), call.name, byModel, ok, skipped, hashes)])
  }

  function Skip(env: Env, s: Session, call: ToolCall): Session {
    Row(env, s, call, true, false, true, [])
  }

  // What the tool itself leaves behind.
  function Dispatched(env: Env, s: Session, call: ToolCall, o: Outcome): Session {
    var s := if call.name == SET_NEXT_WAKE && o.ok then SetWake(env, s, call) else s;
    s.(ended := s.ended || (call.name == END_SESSION && o.ok),
       log := s.log + if o.wrote then [WorkspaceRow(env.session)] else [])
  }

  // The result message, the row, the journal material and the error counter.
  function Settled(env: Env, s: Session, call: ToolCall, o: Outcome): Session {
    var s := s.(messages := s.messages + [ToolResultMessage(call.id, o.content, !o.ok)], executed := s.executed + 1);
    Credited(Row(env, s, call, true, o.ok, false, HashesOf(o)), call, o)
  }

  function Credited(s: Session, call: ToolCall, o: Outcome): Session {
    s.(journalTools := s.journalTools + multiset{call.name},
       journalTxs := Collect(s.journalTxs, HashesOf(o)),
       errors := if o.ok then 0 else s.errors + 1)
  }

  function Execute(env: Env, s: Session, call: ToolCall): Session {
    var o := env.tools(s.executed);
    Settled(env, Dispatched(env, s, call, o), call, o)
  }

  function Record(env: Env, s: Session, call: ToolCall, bad: bool): Session {
    s.(history := s.history + [Repetition.Call(env.signature(call), call.name, bad)])
  }

  // The one cap-skipped set_next_wake intent that is still carried: the last.
  function LastWake(calls: seq<ToolCall>): Option<ToolCall> {
    if calls == [] then None
    else if calls[|calls| - 1].name == SET_NEXT_WAKE then Some(calls[|calls| - 1])
    else LastWake(calls[..|calls| - 1])
  }

  function Carry(env: Env, s: Session, unexecuted: seq<ToolCall>): Session {
    match LastWake(unexecuted)
    case None => s
    case Some(call) =>
      if env.wakeOf(call).None? then s.(carried := Invalid)
      else SetWake(env, s, call).(carried := Applied)
  }

  // What follows an executed call: the error cap, the repetition breaker, the tool cap.
  function Judge(env: Env, s: Session, call: ToolCall, o: Outcome, rest: seq<ToolCall>): (Session, Option<Reason>) {
    if !o.ok && s.errors >= env.caps.consecutiveErrors then (s, Some(Errors))
    else if s.ended then (s, None)
    else
      var s := if call.name == WAIT then s else Record(env, s, call, !o.ok || o.revertShaped);
      if call.name != WAIT && Repetition.Verdict(env.caps.limits, s.history).Some?
      then (Carry(env, s, rest), Some(RepetitionTripped))
      else if s.executed >= env.caps.sessionTools then (Carry(env, s, rest), Some(ToolCap))
      else (s, None)
  }

  function Batch(env: Env, s: Session, calls: seq<ToolCall>): (Session, Option<Reason>)
    decreases |calls|
  {
    if calls == [] then (s, if s.ended then Some(ByAgent) else None)
    else if s.ended then Batch(env, Skip(env, s, calls[0]), calls[1..])
    else
      var (s1, reason) := Judge(env, Execute(env, s, calls[0]), calls[0], env.tools(s.executed), calls[1..]);
      if reason.Some? then (s1, reason) else Batch(env, s1, calls[1..])
  }

  // --- the session --------------------------------------------------------------------------

  function Begin(env: Env, log: Log, cumulativeUsd: real, cumulativeTokens: int): Session {
    Session([UserMessage(env.kickoff)], log, [], 0, 0, 0, 0, 0, 0, 0.0, 0, cumulativeUsd, cumulativeTokens,
            [], false, None, NotCarried, multiset{}, [])
  }

  function Inject(env: Env, s: Session, i: Injection): Session {
    var pair := [AssistantMessage(None, [i.call], None), ToolResultMessage(i.call.id, i.content, !i.ok)];
    Row(env, s.(messages := s.messages + pair), i.call, false, i.ok, false, [])
  }

  function InjectAll(env: Env, s: Session, injections: seq<Injection>): Session {
    if injections == [] then s
    else Inject(env, InjectAll(env, s, injections[..|injections| - 1]), injections[|injections| - 1])
  }

  function Join(texts: seq<string>): string {
    if texts == [] then ""
    else if |texts| == 1 then texts[0]
    else Join(texts[..|texts| - 1]) + "\n\n" + texts[|texts| - 1]
  }

  function Turn(r: Response): Message {
    AssistantMessage(if r.texts == [] then None else Some(Join(r.texts)), r.calls, r.state)
  }

  function Listen(s: Session, r: Response): Session {
    s.(messages := s.messages + [Turn(r)])
  }

  // One turn: a model call and what it leads to; a reason ends the session.
  function TakeTurn(env: Env, s: Session): (Session, Option<Reason>) {
    var (s, response) := AskModel(env, s, 0);
    if response.None? then (s, Some(Errors)) else
      var r := response.value;
      var s := Listen(s, r);
      if r.usage.input + r.usage.output >= env.caps.sessionTokens then (Carry(env, s, r.calls), Some(TokenCap))
      else if r.calls != [] then Batch(env, s, r.calls)
      else
        var s := s.(errors := s.errors + 1);
        if s.errors >= env.caps.consecutiveErrors then (s, Some(Errors))
        else (s.(messages := s.messages + [UserMessage(env.continuation)]), None)
  }

  function AtLeastZero(n: int): nat {
    if n < 0 then 0 else n
  }

  // --- what the small steps leave alone -----------------------------------------------------

  lemma CarrySetsTheWake(env: Env, s: Session, rest: seq<ToolCall>)
    ensures var t := Carry(env, s, rest); t == s.(wake := t.wake, carried := t.carried)
  {
  }

  lemma JudgeOnlyRecords(env: Env, s: Session, call: ToolCall, o: Outcome, rest: seq<ToolCall>)
    ensures var t := Judge(env, s, call, o, rest).0;
            t == s.(history := t.history, wake := t.wake, carried := t.carried)
  {
    hide Carry;
    CarrySetsTheWake(env, s, rest);
    CarrySetsTheWake(env, Record(env, s, call, !o.ok || o.revertShaped), rest);
  }

  lemma SkipAddsARow(env: Env, s: Session, call: ToolCall)
    ensures var t := Skip(env, s, call); t == s.(callSeq := t.callSeq, toolRows := t.toolRows, log := t.log)
  {
  }

  // --- progress -----------------------------------------------------------------------------

  lemma AskModelKeeps(env: Env, s: Session, attempt: nat)
    ensures var s' := AskModel(env, s, attempt).0;
            && s'.executed == s.executed && s'.errors == s.errors && s'.ended == s.ended
            && s'.messages == s.messages && s'.history == s.history && s'.callSeq == s.callSeq
            && s'.toolRows == s.toolRows && s'.journalTools == s.journalTools && s'.journalTxs == s.journalTxs
            && s'.wake == s.wake && s'.carried == s.carried
    decreases env.caps.retries - attempt
  {
    var answer := env.adapter(s.requestSeq + 1);
    if !IsUseful(answer) && !GivesUp(env, answer, attempt) {
      AskModelKeeps(env, Attempt(env, s), attempt + 1);
    }
  }

  lemma {:induction false} BatchProgress(env: Env, s: Session, calls: seq<ToolCall>)
    ensures var (s', reason) := Batch(env, s, calls);
            reason.None? ==>
              && !s'.ended && s'.executed == s.executed + |calls|
              && (calls != [] ==> s'.executed < env.caps.sessionTools)
              && (calls != [] ==> s'.errors == 0 || s'.errors < env.caps.consecutiveErrors)
              && (calls == [] ==> s' == s)
    decreases |calls|
  {
    if calls != [] {
      if s.ended {
        SkippedBatchEnds(env, Skip(env, s, calls[0]), calls[1..]);
      } else {
        var (s1, reason) := Judge(env, Execute(env, s, calls[0]), calls[0], env.tools(s.executed), calls[1..]);
        if reason.None? {
          BatchProgress(env, s1, calls[1..]);
          if s1.ended {
            SkippedBatchEnds(env, s1, calls[1..]);
          }
        }
      }
    }
  }

  lemma {:induction false} SkippedBatchEnds(env: Env, s: Session, calls: seq<ToolCall>)
    requires s.ended
    ensures Batch(env, s, calls).1 == Some(ByAgent)
    ensures Batch(env, s, calls).0.ended && Batch(env, s, calls).0.executed == s.executed
    decreases |calls|
  {
    if calls != [] {
      SkippedBatchEnds(env, Skip(env, s, calls[0]), calls[1..]);
    }
  }

  lemma TurnProgress(env: Env, s: Session)
    ensures var (s', reason) := TakeTurn(env, s);
            reason.None? ==>
              || (s.executed < s'.executed < env.caps.sessionTools
                  && (s'.errors == 0 || s'.errors < env.caps.consecutiveErrors))
              || (s'.executed == s.executed && s'.errors == s.errors + 1 < env.caps.consecutiveErrors)
    ensures TakeTurn(env, s).1.None? && !s.ended ==> !TakeTurn(env, s).0.ended
  {
    AskModelKeeps(env, s, 0);
    var (s1, response) := AskModel(env, s, 0);
    if response.Some? {
      BatchProgress(env, Listen(s1, response.value), response.value.calls);
    }
  }

  function Turns(env: Env, s: Session): (Session, Reason)
    decreases AtLeastZero(env.caps.sessionTools - s.executed), AtLeastZero(env.caps.consecutiveErrors - s.errors)
  {
    TurnProgress(env, s);
    var (s', reason) := TakeTurn(env, s);
    if reason.Some? then (s', reason.value) else Turns(env, s')
  }

  function WholeSession(env: Env, log: Log, cumulativeUsd: real, cumulativeTokens: int): (Session, Reason) {
    Turns(env, InjectAll(env, Begin(env, log, cumulativeUsd, cumulativeTokens), env.injections))
  }

  // --- a session only appends to the log it was started on --------------------------------------

  // The rows that the loop writes; a skipped call carries no hashes.
  predicate IsLoopRow(e: Event, session: nat) {
    && e.session == session
    && match e
       case LlmRequest(_, _) => true
       case LlmCall(_, _, _, _, _, _, phantom) => !phantom
       case WorkspaceRow(_) => true
       case ToolRow(_, n, _, byModel, ok, skipped, hashes) => n.Some? && (skipped ==> byModel && !ok && hashes == [])
       case _ => false
  }

  ghost predicate Appends(env: Env, before: Log, after: Log) {
    before <= after && forall i :: |before| <= i < |after| ==> IsLoopRow(after[i], env.session)
  }

  lemma AppendsMore(env: Env, a: Log, b: Log, c: Log)
    requires Appends(env, a, b) && Appends(env, b, c)
    ensures Appends(env, a, c)
  {
    hide IsLoopRow;
    assert forall i :: |a| <= i < |b| ==> c[i] == b[i];
  }

  lemma AttemptAppends(env: Env, s: Session)
    ensures Appends(env, s.log, Attempt(env, s).log)
  {
  }

  lemma {:induction false} AskModelExtends(env: Env, s: Session, attempt: nat)
    ensures Appends(env, s.log, AskModel(env, s, attempt).0.log)
    decreases env.caps.retries - attempt
  {
    hide Appends, Attempt;
    AttemptAppends(env, s);
    var answer := env.adapter(s.requestSeq + 1);
    if !IsUseful(answer) && !GivesUp(env, answer, attempt) {
      AskModelExtends(env, Attempt(env, s), attempt + 1);
      AppendsMore(env, s.log, Attempt(env, s).log, AskModel(env, Attempt(env, s), attempt + 1).0.log);
    }
  }

  lemma ExecuteExtends(env: Env, s: Session, call: ToolCall)
    ensures Appends(env, s.log, Execute(env, s, call).log)
  {
    hide SetWake, HashesOf;
    SetWakeLeavesTheLog(env, s, call);
  }

  lemma SetWakeLeavesTheLog(env: Env, s: Session, call: ToolCall)
    ensures SetWake(env, s, call).log == s.log
  {
  }

  lemma SkipExtends(env: Env, s: Session, call: ToolCall)
    ensures Appends(env, s.log, Skip(env, s, call).log)
  {
  }

  lemma {:induction false} BatchExtends(env: Env, s: Session, calls: seq<ToolCall>)
    ensures Appends(env, s.log, Batch(env, s, calls).0.log)
    decreases |calls|
  {
    hide Execute, Judge, Skip, IsLoopRow;
    if calls != [] {
      if s.ended {
        var s1 := Skip(env, s, calls[0]);
        SkipExtends(env, s, calls[0]);
        BatchExtends(env, s1, calls[1..]);
        AppendsMore(env, s.log, s1.log, Batch(env, s1, calls[1..]).0.log);
      } else {
        ExecuteExtends(env, s, calls[0]);
        JudgeOnlyRecords(env, Execute(env, s, calls[0]), calls[0], env.tools(s.executed), calls[1..]);
        var (s1, reason) := Judge(env, Execute(env, s, calls[0]), calls[0], env.tools(s.executed), calls[1..]);
        if reason.None? {
          BatchExtends(env, s1, calls[1..]);
          AppendsMore(env, s.log, s1.log, Batch(env, s1, calls[1..]).0.log);
        }
      }
    }
  }

  lemma TurnExtends(env: Env, s: Session)
    ensures Appends(env, s.log, TakeTurn(env, s).0.log)
  {
    hide AskModel, Batch, Carry, Appends;
    AskModelExtends(env, s, 0);
    var (s1, response) := AskModel(env, s, 0);
    if response.Some? {
      CarrySetsTheWake(env, Listen(s1, response.value), response.value.calls);
      BatchExtends(env, Listen(s1, response.value), response.value.calls);
      AppendsMore(env, s.log, s1.log, Batch(env, Listen(s1, response.value), response.value.calls).0.log);
    }
  }

  lemma {:induction false} TurnsExtend(env: Env, s: Session)
    ensures Appends(env, s.log, Turns(env, s).0.log)
    decreases AtLeastZero(env.caps.sessionTools - s.executed), AtLeastZero(env.caps.consecutiveErrors - s.errors)
  {
    hide TakeTurn, Appends;
    TurnProgress(env, s);
    TurnExtends(env, s);
    if TakeTurn(env, s).1.None? {
      TurnsExtend(env, TakeTurn(env, s).0);
      AppendsMore(env, s.log, TakeTurn(env, s).0.log, Turns(env, TakeTurn(env, s).0).0.log);
    }
  }

  lemma InjectExtends(env: Env, s: Session, i: Injection)
    ensures Appends(env, s.log, Inject(env, s, i).log)
  {
  }

  lemma {:induction false} InjectionsExtend(env: Env, s: Session, injections: seq<Injection>)
    ensures Appends(env, s.log, InjectAll(env, s, injections).log)
  {
    hide Inject, IsLoopRow;
    if injections != [] {
      var n := |injections| - 1;
      var s1 := InjectAll(env, s, injections[..n]);
      InjectionsExtend(env, s, injections[..n]);
      InjectExtends(env, s1, injections[n]);
      AppendsMore(env, s.log, s1.log, Inject(env, s1, injections[n]).log);
    }
  }

  // A session only appends, and only rows of its own kinds and under its own number.
  lemma SessionExtends(env: Env, log: Log, usd: real, tokens: int)
    ensures log <= WholeSession(env, log, usd, tokens).0.log
    ensures Appends(env, log, WholeSession(env, log, usd, tokens).0.log)
  {
    hide Turns, InjectAll, IsLoopRow;
    var s := Begin(env, log, usd, tokens);
    InjectionsExtend(env, s, env.injections);
    TurnsExtend(env, InjectAll(env, s, env.injections));
    AppendsMore(env, log, InjectAll(env, s, env.injections).log, Turns(env, InjectAll(env, s, env.injections)).0.log);
  }

  // --- the loop itself ------------------------------------------------------------------------

  class SessionLoop {
    const env: Env
    const telemetry: TelemetryWriter
    const tracker: Repetition.RepetitionTracker
    var messages: seq<Message>
    var sent: seq<seq<Message>>
    var requestSeq: nat
    var callSeq: nat
    var executed: nat
    var errors: nat
    var llmCalls: nat
    var toolRows: nat
    var cost: real
    var tokens: nat
    var cumulativeUsd: real
    var cumulativeTokens: int
    var ended: bool
    var wake: Option<int>
    var carried: Carried
    var journalTools: multiset<string>
    var journalTxs: seq<string>

    ghost predicate Valid()
      reads tracker
    {
      tracker.Valid() && tracker.limits == env.caps.limits
    }

    ghost function View(): Session
      reads this, telemetry, tracker
    {
      Session(messages, telemetry.log, sent, requestSeq, callSeq, executed, errors, llmCalls, toolRows, cost, tokens,
              cumulativeUsd, cumulativeTokens, tracker.history, ended, wake, carried, journalTools, journalTxs)
    }

    constructor (env: Env, telemetry: TelemetryWriter, cumulativeUsd: real, cumulativeTokens: int)
      ensures Valid() && fresh(tracker)
      ensures this.env == env && this.telemetry == telemetry
      ensures View() == Begin(env, telemetry.log, cumulativeUsd, cumulativeTokens)
    {
      this.env, this.telemetry := env, telemetry;
      tracker := new Repetition.RepetitionTracker(env.caps.limits);
      messages, sent := [UserMessage(env.kickoff)], [];
      requestSeq, callSeq, executed, errors, llmCalls, toolRows, cost, tokens := 0, 0, 0, 0, 0, 0, 0.0, 0;
      this.cumulativeUsd, this.cumulativeTokens := cumulativeUsd, cumulativeTokens;
      ended, wake, carried, journalTools, journalTxs := false, None, NotCarried, multiset{}, [];
    }

    // The write-ahead row; the adapter then receives the history.
    method EmitRequest()
      modifies this, telemetry
      ensures View() == Request(env, old(View()))
    {
      requestSeq := requestSeq + 1;
      telemetry.Emit(LlmRequest(env.session, requestSeq));
      sent := sent + [messages];
    }

    method Count(used: nat, price: real)
      modifies this
      ensures View() == Counted(old(View()), used, price)
    {
      CountRun(used, price);
      llmCalls := llmCalls + 1;
      cost := cost + price;
      tokens := tokens + used;
    }

    method CountRun(used: nat, price: real)
      modifies this
      ensures View() == old(View()).(cumulativeUsd := old(cumulativeUsd) + price,
                                     cumulativeTokens := old(cumulativeTokens) + used)
    {
      cumulativeUsd := cumulativeUsd + price;
      cumulativeTokens := cumulativeTokens + used;
    }

    method EmitLlmCall(used: nat, price: real)
      modifies this, telemetry
      ensures View() == Billed(env, old(View()), used, price)
    {
      Count(used, price);
      telemetry.Emit(LlmCall(env.session, requestSeq, used, price, cumulativeUsd, cumulativeTokens, false));
    }

    method MakeAttempt() returns (answer: Answer)
      modifies this, telemetry
      ensures answer == env.adapter(old(requestSeq) + 1) && View() == Attempt(env, old(View()))
    {
      EmitRequest();
      answer := env.adapter(requestSeq);
      if IsUseful(answer) {
        var usage := answer.response.usage;
        EmitLlmCall(usage.input + usage.output, Governor.CostUsd(usage, env.prices));
      } else {
        EmitLlmCall(0, 0.0);
      }
    }

    method CallModel() returns (response: Option<Response>)
      requires Valid()
      modifies this, telemetry
      ensures Valid() && (View(), response) == AskModel(env, old(View()), 0)
    {
      hide Attempt;
      var attempt: nat := 0;
      ghost var start := View();
      while true
        invariant Valid()
        invariant AskModel(env, start, 0) == AskModel(env, View(), attempt)
        decreases env.caps.retries - attempt
      {
        var answer := MakeAttempt();
        if IsUseful(answer) {
          return Some(answer.response);
        }
        if GivesUp(env, answer, attempt) {
          return None;
        }
        attempt := attempt + 1;
      }
    }

    method EmitToolCall(call: ToolCall, byModel: bool, ok: bool, skipped: bool, hashes: seq<string>)
      modifies this, telemetry
      ensures View() == Row(env, old(View()), call, byModel, ok, skipped, hashes)
    {
      callSeq := callSeq + 1;
      toolRows := toolRows + 1;
      telemetry.Emit(ToolRow(env.session, Some(callSeq), call.name, byModel, ok, skipped, hashes));
    }

    method InjectPair(i: Injection)
      modifies this, telemetry
      ensures View() == Inject(env, old(View()), i)
    {
      messages := messages + [AssistantMessage(None, [i.call], None)];
      messages := messages + [ToolResultMessage(i.call.id, i.content, !i.ok)];
      EmitToolCall(i.call, false, i.ok, false, []);
    }

    method CollectJournalTxs(hashes: seq<string>)
      modifies this
      ensures View() == old(View()).(journalTxs := Collect(old(journalTxs), hashes))
    {
      ghost var known := View();
      for i := 0 to |hashes|
        invariant View() == known.(journalTxs := Collect(known.journalTxs, hashes[..i]))
      {
        assert hashes[..i + 1][..i] == hashes[..i];
        if hashes[i] !in journalTxs {
          journalTxs := journalTxs + [hashes[i]];
        }
      }
      assert hashes[..|hashes|] == hashes;
    }

    method CarryWake(unexecuted: seq<ToolCall>)
      modifies this
      ensures View() == Carry(env, old(View()), unexecuted)
    {
      var candidate: Option<ToolCall> := None;
      for i := 0 to |unexecuted|
        invariant candidate == LastWake(unexecuted[..i])
      {
        assert unexecuted[..i + 1][..i] == unexecuted[..i];
        if unexecuted[i].name == SET_NEXT_WAKE {
          candidate := Some(unexecuted[i]);
        }
      }
      assert unexecuted[..|unexecuted|] == unexecuted;
      if candidate.None? {
        return;
      }
      var minutes := env.wakeOf(candidate.value);
      if minutes.None? {
        carried := Invalid;
      } else {
        wake := Some(Clamp(minutes.value, env.caps.wakeMin, env.caps.wakeMax));
        carried := Applied;
      }
    }

    method Dispatch(call: ToolCall, outcome: Outcome)
      modifies this, telemetry
      ensures View() == Dispatched(env, old(View()), call, outcome)
    {
      if call.name == SET_NEXT_WAKE && outcome.ok {
        var minutes := env.wakeOf(call);
        if minutes.Some? {
          wake := Some(Clamp(minutes.value, env.caps.wakeMin, env.caps.wakeMax));
        }
      }
      if call.name == END_SESSION && outcome.ok {
        ended := true;
      }
      if outcome.wrote {
        telemetry.Emit(WorkspaceRow(env.session));
      }
    }

    method Settle(call: ToolCall, outcome: Outcome)
      modifies this, telemetry
      ensures View() == Settled(env, old(View()), call, outcome)
    {
      messages := messages + [ToolResultMessage(call.id, outcome.content, !outcome.ok)];
      executed := executed + 1;
      EmitToolCall(call, true, outcome.ok, false, HashesOf(outcome));
      Credit(call, outcome);
    }

    // The journal material and the error counter.
    method Credit(call: ToolCall, outcome: Outcome)
      modifies this
      ensures View() == Credited(old(View()), call, outcome)
    {
      errors := if outcome.ok then 0 else errors + 1;
      journalTools := journalTools + multiset{call.name};
      CollectJournalTxs(HashesOf(outcome));
    }

    method ExecuteIntent(call: ToolCall) returns (outcome: Outcome)
      modifies this, telemetry
      ensures outcome == env.tools(old(executed))
      ensures View() == Execute(env, old(View()), call)
    {
      outcome := env.tools(executed);
      Dispatch(call, outcome);
      Settle(call, outcome);
    }

    // The checks after an executed call, in the order they are made.
    method CheckCaps(call: ToolCall, outcome: Outcome, rest: seq<ToolCall>) returns (reason: Option<Reason>)
      requires Valid()
      modifies this, tracker
      ensures Valid() && (View(), reason) == Judge(env, old(View()), call, outcome, rest)
    {
      if !outcome.ok && errors >= env.caps.consecutiveErrors {
        return Some(Errors);
      }
      if !ended {
        if call.name != WAIT {
          var trip := tracker.Record(env.signature(call), call.name, !outcome.ok || outcome.revertShaped);
          if trip.Some? {
            CarryWake(rest);
            return Some(RepetitionTripped);
          }
        }
        if executed >= env.caps.sessionTools {
          CarryWake(rest);
          return Some(ToolCap);
        }
      }
      return None;
    }

    method SkipIntent(call: ToolCall)
      modifies this, telemetry
      ensures View() == Skip(env, old(View()), call)
    {
      EmitToolCall(call, true, false, true, []);
    }

    method ExecuteBatch(calls: seq<ToolCall>) returns (reason: Option<Reason>)
      requires Valid()
      modifies this, telemetry, tracker
      ensures Valid() && (View(), reason) == Batch(env, old(View()), calls)
    {
      ghost var start := View();
      for index := 0 to |calls|
        invariant Valid()
        invariant Batch(env, start, calls) == Batch(env, View(), calls[index..])
      {
        var call := calls[index];
        assert calls[index..][1..] == calls[index + 1..];
        if ended {
          SkipIntent(call);
          continue;
        }
        var outcome := ExecuteIntent(call);
        reason := CheckCaps(call, outcome, calls[index + 1..]);
        if reason.Some? {
          return;
        }
      }
      reason := if ended then Some(ByAgent) else None;
    }

    method OneTurn() returns (ending: Option<Reason>)
      requires Valid()
      modifies this, telemetry, tracker
      ensures Valid() && (View(), ending) == TakeTurn(env, old(View()))
    {
      hide AskModel, Batch, Carry;
      var response := CallModel();
      if response.None? {
        return Some(Errors);
      }
      var r := response.value;
      messages := messages + [Turn(r)];
      if r.usage.input + r.usage.output >= env.caps.sessionTokens {
        CarryWake(r.calls);
        return Some(TokenCap);
      }
      if r.calls == [] {
        errors := errors + 1;
        if errors >= env.caps.consecutiveErrors {
          return Some(Errors);
        }
        messages := messages + [UserMessage(env.continuation)];
        return None;
      }
      ending := ExecuteBatch(r.calls);
    }

    method RunLoop() returns (reason: Reason)
      requires Valid()
      modifies this, telemetry, tracker
      ensures Valid() && (View(), reason) == Turns(env, InjectAll(env, old(View()), env.injections))
    {
      hide TakeTurn, Inject;
      ghost var start := View();
      for i := 0 to |env.injections|
        invariant Valid() && View() == InjectAll(env, start, env.injections[..i])
      {
        assert env.injections[..i + 1][..i] == env.injections[..i];
        InjectPair(env.injections[i]);
      }
      assert env.injections[..|env.injections|] == env.injections;
      start := View();
      while true
        invariant Valid()
        invariant Turns(env, start) == Turns(env, View())
        decreases AtLeastZero(env.caps.sessionTools - executed), AtLeastZero(env.caps.consecutiveErrors - errors)
      {
        TurnProgress(env, View());
        var ending := OneTurn();
        if ending.Some? {
          return ending.value;
        }
      }
    }
  }
}
