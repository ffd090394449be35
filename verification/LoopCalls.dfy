/**
 The calls of a session, one by one.  What a session executes is a prefix of what its
 answers asked for, in order; the rows it logs, the journal material, the breaker's
 history and the next wake are functions of that prefix and of what it left unexecuted.
 */
module LoopCalls {
  import opened Options
  import opened Conversation
  import opened Telemetry
  import opened AgentLoop
  import opened LoopAccounting
  import LoopBounds
  import Repetition

  // --- what is asked ----------------------------------------------------------------------------

  function CallsOf(env: Env, n: nat): seq<ToolCall> {
    if IsUseful(env.adapter(n)) then env.adapter(n).response.calls else []
  }

  // The calls of the answers to the first `n` requests.
  function Asked(env: Env, n: nat): seq<ToolCall> {
    if n == 0 then [] else Asked(env, n - 1) + CallsOf(env, n)
  }

  // --- what is logged ---------------------------------------------------------------------------

  // The rows of the model's own calls, executed or skipped.
  function ModelRows(log: Log, session: nat): Log {
    if log == [] then [] else
      var e := log[|log| - 1];
      ModelRows(log[..|log| - 1], session) + if ModelRow(e, session) then [e] else []
  }

  // The row of the i-th executed call.
  predicate IsExecuted(env: Env, e: Event, call: ToolCall, i: nat) {
    var o := env.tools(i);
    e.ToolRow? && e.tool == call.name && e.ok == o.ok && !e.skipped && e.hashes == HashesOf(o)
  }

  predicate IsSkipped(e: Event, call: ToolCall) {
    e.ToolRow? && e.tool == call.name && !e.ok && e.skipped && e.hashes == []
  }

  // Rows of calls in order: the first `executed` executed, the others skipped.
  ghost predicate RowsAre(env: Env, rows: Log, calls: seq<ToolCall>, executed: nat) {
    && |rows| == |calls|
    && forall i :: 0 <= i < |rows| ==>
                     if i < executed then IsExecuted(env, rows[i], calls[i], i) else IsSkipped(rows[i], calls[i])
  }

  // --- what follows from executed calls -----------------------------------------------------------

  function Names(calls: seq<ToolCall>): multiset<string> {
    if calls == [] then multiset{} else Names(calls[..|calls| - 1]) + multiset{calls[|calls| - 1].name}
  }

  function Txs(env: Env, done: seq<ToolCall>): seq<string> {
    if done == [] then [] else Collect(Txs(env, done[..|done| - 1]), HashesOf(env.tools(|done| - 1)))
  }

  function Breaker(env: Env, done: seq<ToolCall>): seq<Repetition.Call> {
    if done == [] then [] else
      var call, o := done[|done| - 1], env.tools(|done| - 1);
      Breaker(env, done[..|done| - 1])
      + if call.name == "wait" then []
        else [Repetition.Call(env.signature(call), call.name, !o.ok || o.revertShaped)]
  }

  predicate SetsWake(env: Env, call: ToolCall, o: Outcome) {
    call.name == "set_next_wake" && o.ok && env.wakeOf(call).Some?
  }

  function Clamped(env: Env, call: ToolCall): int
    requires env.wakeOf(call).Some?
  {
    Clamp(env.wakeOf(call).value, env.caps.wakeMin, env.caps.wakeMax)
  }

  // The wake that the executed calls leave.
  function WakeAfter(env: Env, done: seq<ToolCall>): Option<int> {
    if done == [] then None
    else if SetsWake(env, done[|done| - 1], env.tools(|done| - 1)) then Some(Clamped(env, done[|done| - 1]))
    else WakeAfter(env, done[..|done| - 1])
  }

  // The wake once the last request among the unexecuted calls is carried.
  function WakeCarried(env: Env, wake: Option<int>, rest: seq<ToolCall>): Option<int> {
    match LastWake(rest)
    case None => wake
    case Some(call) => if env.wakeOf(call).Some? then Some(Clamped(env, call)) else wake
  }

  // What is recorded of that request.
  function CarriedOf(env: Env, rest: seq<ToolCall>): Carried {
    match LastWake(rest)
    case None => NotCarried
    case Some(call) => if env.wakeOf(call).Some? then Applied else Invalid
  }

  predicate CarriesWake(reason: Reason) {
    reason == TokenCap || reason == ToolCap || reason == RepetitionTripped
  }

  // --- where a session stands --------------------------------------------------------------------

  // The calls `done` were executed, and after them those of `skipped` were skipped.
  ghost predicate Stood(env: Env, s: Session, done: seq<ToolCall>, skipped: seq<ToolCall>) {
    && s.executed == |done|
    && RowsAre(env, ModelRows(s.log, env.session), done + skipped, |done|)
    && s.journalTools == Names(done) && s.journalTxs == Txs(env, done)
  }

  // An accepted `end_session` is the last executed call, if `ended`, and otherwise there is
  // none.
  ghost predicate EndedBy(env: Env, done: seq<ToolCall>, ended: bool) {
    forall i :: 0 <= i < |done| ==>
                  (done[i].name == "end_session" && env.tools(i).ok <==> ended && i == |done| - 1)
  }

  // The session goes on after `done`.
  ghost predicate GoesOn(env: Env, s: Session, done: seq<ToolCall>) {
    && Stood(env, s, done, []) && !s.ended
    && s.history == Breaker(env, done) && s.wake == WakeAfter(env, done) && s.carried == NotCarried
    && EndedBy(env, done, false)
  }

  // The calls of `done` that the breaker judged: all but one that ended the session or
  // brought the errors to their cap.
  function Judged(done: seq<ToolCall>, reason: Reason, fromBatch: bool): seq<ToolCall>
    requires fromBatch ==> done != []
  {
    if fromBatch && (reason == ByAgent || reason == Errors) then done[..|done| - 1] else done
  }

  // The session ended after `done`, with `rest` not executed; `fromBatch` says that the
  // last call of `done` belongs to the last answer.
  ghost predicate EndsAfter(env: Env, s: Session, reason: Reason, done: seq<ToolCall>, rest: seq<ToolCall>,
                            fromBatch: bool)
    requires fromBatch ==> done != []
  {
    && Stood(env, s, done, if s.ended then rest else [])
    && (s.ended <==> reason == ByAgent) && (s.ended ==> done != [])
    && EndedBy(env, done, s.ended)
    && s.history == Breaker(env, Judged(done, reason, fromBatch))
    && s.wake == (if CarriesWake(reason) then WakeCarried(env, WakeAfter(env, done), rest) else WakeAfter(env, done))
    && s.carried == if CarriesWake(reason) then CarriedOf(env, rest) else NotCarried
  }

  // --- one step -----------------------------------------------------------------------------------

  lemma OneMoreRow(log: Log, e: Event, session: nat)
    ensures ModelRows(log + [e], session) == ModelRows(log, session) + if ModelRow(e, session) then [e] else []
  {
    assert (log + [e])[..|log|] == log;
  }

  lemma {:induction false} OtherRows(log: Log, rows: Log, session: nat)
    requires forall i :: 0 <= i < |rows| ==> !ModelRow(rows[i], session)
    ensures ModelRows(log + rows, session) == ModelRows(log, session)
  {
    hide ModelRow, ModelRows;
    if rows == [] {
      assert log + rows == log;
    } else {
      var n := |rows| - 1;
      OtherRows(log, rows[..n], session);
      OneMoreRow(log + rows[..n], rows[n], session);
      assert log + rows == log + rows[..n] + [rows[n]];
    }
  }

  lemma OneMoreCall(env: Env, done: seq<ToolCall>, call: ToolCall)
    ensures var o, all := env.tools(|done|), done + [call];
            && Names(all) == Names(done) + multiset{call.name}
            && Txs(env, all) == Collect(Txs(env, done), HashesOf(o))
            && Breaker(env, all)
               == Breaker(env, done)
                  + (if call.name == WAIT then []
                     else [Repetition.Call(env.signature(call), call.name, !o.ok || o.revertShaped)])
            && WakeAfter(env, all) == if SetsWake(env, call, o) then Some(Clamped(env, call)) else WakeAfter(env, done)
  {
    hide Collect, HashesOf;
    assert (done + [call])[..|done|] == done;
  }

  lemma DispatchedIs(env: Env, s: Session, call: ToolCall, o: Outcome)
    ensures var t := Dispatched(env, s, call, o);
            && t.wake == (if SetsWake(env, call, o) then Some(Clamped(env, call)) else s.wake)
            && t.ended == (s.ended || (call.name == END_SESSION && o.ok))
            && t.executed == s.executed && t.history == s.history && t.carried == s.carried
            && t.journalTools == s.journalTools && t.journalTxs == s.journalTxs
            && ModelRows(t.log, env.session) == ModelRows(s.log, env.session)
  {
    if o.wrote {
      OneMoreRow(s.log, WorkspaceRow(env.session), env.session);
    } else {
      assert s.log + [] == s.log;
    }
  }

  lemma SettledIs(env: Env, s: Session, call: ToolCall, o: Outcome)
    ensures var t := Settled(env, s, call, o);
            var row := ToolRow(env.session, Some(s.callSeq + 1), call.name, true, o.ok, false, HashesOf(o));
            && t.wake == s.wake && t.ended == s.ended && t.executed == s.executed + 1 && t.history == s.history
            && t.journalTools == s.journalTools + multiset{call.name} && t.carried == s.carried
            && t.journalTxs == Collect(s.journalTxs, HashesOf(o))
            && ModelRows(t.log, env.session) == ModelRows(s.log, env.session) + [row]
  {
    hide Collect, HashesOf;
    var row := ToolRow(env.session, Some(s.callSeq + 1), call.name, true, o.ok, false, HashesOf(o));
    OneMoreRow(s.log, row, env.session);
  }

  lemma OneMoreEnd(env: Env, done: seq<ToolCall>, call: ToolCall)
    requires EndedBy(env, done, false)
    ensures EndedBy(env, done + [call], call.name == "end_session" && env.tools(|done|).ok)
  {
  }

  lemma ExecuteStands(env: Env, s: Session, call: ToolCall, done: seq<ToolCall>)
    requires GoesOn(env, s, done)
    ensures var t := Execute(env, s, call);
            && Stood(env, t, done + [call], []) && t.history == s.history
            && t.wake == WakeAfter(env, done + [call]) && t.carried == NotCarried
            && t.ended == (call.name == END_SESSION && env.tools(|done|).ok)
  {
    hide Collect, HashesOf, Dispatched, Settled, ModelRows, Names, Txs, Breaker, WakeAfter, SetsWake;
    var o := env.tools(|done|);
    OneMoreCall(env, done, call);
    DispatchedIs(env, s, call, o);
    SettledIs(env, Dispatched(env, s, call, o), call, o);
    assert done + [] == done && done + [call] + [] == done + [call];
  }

  lemma SkipStands(env: Env, s: Session, call: ToolCall, done: seq<ToolCall>, skipped: seq<ToolCall>)
    requires Stood(env, s, done, skipped)
    ensures var t := Skip(env, s, call);
            && Stood(env, t, done, skipped + [call])
            && t.history == s.history && t.wake == s.wake && t.ended == s.ended && t.carried == s.carried
  {
    hide ModelRows, Names, Txs;
    OneMoreRow(s.log, ToolRow(env.session, Some(s.callSeq + 1), call.name, true, false, true, []), env.session);
    assert done + (skipped + [call]) == done + skipped + [call];
  }

  // --- a batch ------------------------------------------------------------------------------------

  lemma {:induction false} SkippedBatch(env: Env, s: Session, calls: seq<ToolCall>, done: seq<ToolCall>,
                                        skipped: seq<ToolCall>)
    requires s.ended && Stood(env, s, done, skipped)
    ensures var (t, reason) := Batch(env, s, calls);
            && reason == Some(ByAgent) && t.ended && t.executed == s.executed && Stood(env, t, done, skipped + calls)
            && t.history == s.history && t.wake == s.wake && t.carried == s.carried
    decreases |calls|
  {
    hide EndedBy, Stood, Skip;
    if calls == [] {
      assert skipped + calls == skipped;
    } else {
      SkipStands(env, s, calls[0], done, skipped);
      SkipAddsARow(env, s, calls[0]);
      SkippedBatch(env, Skip(env, s, calls[0]), calls[1..], done, skipped + [calls[0]]);
      assert skipped + [calls[0]] + calls[1..] == skipped + calls;
    }
  }

  lemma CarryIs(env: Env, s: Session, rest: seq<ToolCall>)
    ensures Carry(env, s, rest).wake == WakeCarried(env, s.wake, rest)
    ensures s.carried == NotCarried ==> Carry(env, s, rest).carried == CarriedOf(env, rest)
  {
    hide LastWake;
  }

  // What the checks after a call leave, given what they decide.
  lemma JudgeStands(env: Env, s: Session, call: ToolCall, done: seq<ToolCall>, rest: seq<ToolCall>)
    requires EndedBy(env, done, false)
    requires Stood(env, s, done + [call], []) && s.history == Breaker(env, done)
    requires s.wake == WakeAfter(env, done + [call]) && s.carried == NotCarried
    requires s.ended == (call.name == END_SESSION && env.tools(|done|).ok)
    ensures var (t, reason) := Judge(env, s, call, env.tools(|done|), rest);
            if reason.Some? then EndsAfter(env, t, reason.value, done + [call], rest, true)
            else if t.ended then t == s && EndedBy(env, done + [call], true)
            else GoesOn(env, t, done + [call])
  {
    hide EndedBy, Carry, WakeCarried, CarriedOf, ModelRows, Names, Txs, Breaker, WakeAfter, Repetition.Verdict, RowsAre;
    var o := env.tools(|done|);
    OneMoreCall(env, done, call);
    OneMoreEnd(env, done, call);
    CarryIs(env, s, rest);
    CarryIs(env, Record(env, s, call, !o.ok || o.revertShaped), rest);
    CarrySetsTheWake(env, s, rest);
    CarrySetsTheWake(env, Record(env, s, call, !o.ok || o.revertShaped), rest);
    assert (done + [call])[..|done|] == done;
    assert Breaker(env, done) + [] == Breaker(env, done);
  }

  lemma {:induction false} BatchStands(env: Env, s: Session, calls: seq<ToolCall>, done: seq<ToolCall>)
    requires GoesOn(env, s, done)
    ensures var (t, reason) := Batch(env, s, calls);
            if reason.None? then GoesOn(env, t, done + calls)
            else && s.executed < t.executed <= s.executed + |calls|
                 && var n := t.executed - s.executed;
                    EndsAfter(env, t, reason.value, done + calls[..n], calls[n..], true)
    decreases |calls|, 1
  {
    hide EndedBy, Stood, Execute, Judge, Breaker, WakeAfter, WakeCarried, CarriedOf;
    if calls == [] {
      assert done + calls == done;
    } else {
      var more := done + [calls[0]];
      ExecuteStands(env, s, calls[0], done);
      var s1 := Execute(env, s, calls[0]);
      JudgeStands(env, s1, calls[0], done, calls[1..]);
      var (s2, judged) := Judge(env, s1, calls[0], env.tools(s.executed), calls[1..]);
      StoodCounts(env, s, done, []);
      StoodCounts(env, s1, more, []);
      JudgeOnlyRecords(env, s1, calls[0], env.tools(s.executed), calls[1..]);
      assert more == done + calls[..1];
      if judged.None? {
        RestOfBatch(env, s2, calls, done);
      }
    }
  }

  lemma StoodCounts(env: Env, s: Session, done: seq<ToolCall>, skipped: seq<ToolCall>)
    requires Stood(env, s, done, skipped)
    ensures s.executed == |done|
  {
  }

  // The calls after the first, by the induction hypothesis or skipped.
  lemma {:induction false} RestOfBatch(env: Env, s: Session, calls: seq<ToolCall>, done: seq<ToolCall>)
    requires calls != []
    requires if s.ended
             then Stood(env, s, done + [calls[0]], []) && s.history == Breaker(env, done)
                  && EndedBy(env, done + [calls[0]], true)
                  && s.wake == WakeAfter(env, done + [calls[0]]) && s.carried == NotCarried
             else GoesOn(env, s, done + [calls[0]])
    ensures var (t, reason) := Batch(env, s, calls[1..]);
            if reason.None? then GoesOn(env, t, done + calls)
            else && |done| < t.executed <= |done| + |calls|
                 && var n := t.executed - |done|;
                    EndsAfter(env, t, reason.value, done + calls[..n], calls[n..], true)
    decreases |calls|, 0
  {
    hide EndedBy, Stood, Batch, Breaker, WakeAfter, WakeCarried, CarriedOf;
    var more := done + [calls[0]];
    StoodCounts(env, s, more, []);
    if s.ended {
      SkippedBatch(env, s, calls[1..], more, []);
      assert [] + calls[1..] == calls[1..] && more == done + calls[..1];
      assert more[..|more| - 1] == done;
    } else {
      BatchStands(env, s, calls[1..], more);
      var (t, reason) := Batch(env, s, calls[1..]);
      assert more + calls[1..] == done + calls;
      if reason.Some? {
        var n := t.executed - |done|;
        assert more + calls[1..][..n - 1] == done + calls[..n] && calls[1..][n - 1..] == calls[n..];
      }
    }
  }

  // --- a turn -------------------------------------------------------------------------------------

  lemma AttemptLogsNoCall(env: Env, s: Session)
    ensures Attempt(env, s).requestSeq == s.requestSeq + 1
    ensures ModelRows(Attempt(env, s).log, env.session) == ModelRows(s.log, env.session)
  {
    var rows := Attempt(env, s).log[|s.log|..];
    assert Attempt(env, s).log == s.log + rows;
    OtherRows(s.log, rows, env.session);
  }

  // A model call asks for the calls of its last answer, and for nothing else.
  lemma {:induction false} AskModelAsks(env: Env, s: Session, attempt: nat)
    ensures var (t, response) := AskModel(env, s, attempt);
            && t.requestSeq > s.requestSeq
            && Asked(env, t.requestSeq - 1) == Asked(env, s.requestSeq)
            && CallsOf(env, t.requestSeq) == (if response.Some? then response.value.calls else [])
            && ModelRows(t.log, env.session) == ModelRows(s.log, env.session)
    decreases env.caps.retries - attempt
  {
    hide ModelRows, Attempt;
    AttemptLogsNoCall(env, s);
    var answer := env.adapter(s.requestSeq + 1);
    if !IsUseful(answer) && !GivesUp(env, answer, attempt) {
      assert Asked(env, s.requestSeq + 1) == Asked(env, s.requestSeq) + [];
      AskModelAsks(env, Attempt(env, s), attempt + 1);
    }
  }

  // The whole of a session that ended: what was executed is a prefix of what was asked
  // for, and only calls of the last answer can be missing from it.
  ghost predicate EndsAsAsked(env: Env, s: Session, reason: Reason) {
    && s.requestSeq > 0
    && |Asked(env, s.requestSeq - 1)| <= s.executed <= |Asked(env, s.requestSeq)|
    && (reason == ByAgent ==> s.executed > |Asked(env, s.requestSeq - 1)|)
    && EndsAfter(env, s, reason, Asked(env, s.requestSeq)[..s.executed], Asked(env, s.requestSeq)[s.executed..],
                 s.executed > |Asked(env, s.requestSeq - 1)|)
  }

  // What a batch leaves, said of all that was asked for.
  lemma EndsInBatch(env: Env, s: Session, reason: Reason, done: seq<ToolCall>, calls: seq<ToolCall>)
    requires s.requestSeq > 0 && Asked(env, s.requestSeq - 1) == done && CallsOf(env, s.requestSeq) == calls
    requires |done| < s.executed <= |done| + |calls|
    requires var n := s.executed - |done|;
             EndsAfter(env, s, reason, done + calls[..n], calls[n..], true)
    ensures EndsAsAsked(env, s, reason)
  {
    hide EndsAfter;
    var n := s.executed - |done|;
    assert (done + calls)[..s.executed] == done + calls[..n] && (done + calls)[s.executed..] == calls[n..];
  }

  // A session that ends between two batches, with all of the last answer unexecuted.
  lemma EndsOutside(env: Env, s: Session, reason: Reason, done: seq<ToolCall>, calls: seq<ToolCall>)
    requires s.requestSeq > 0 && Asked(env, s.requestSeq - 1) == done && CallsOf(env, s.requestSeq) == calls
    requires s.executed == |done| && reason != ByAgent && EndsAfter(env, s, reason, done, calls, false)
    ensures EndsAsAsked(env, s, reason)
  {
    hide EndsAfter;
    assert (done + calls)[..s.executed] == done && (done + calls)[s.executed..] == calls;
  }

  // After the model call, with the answer in the history.
  lemma ListenStands(env: Env, s: Session, done: seq<ToolCall>, t: Session)
    requires GoesOn(env, s, done)
    requires ModelRows(t.log, env.session) == ModelRows(s.log, env.session)
    requires t.executed == s.executed && t.ended == s.ended && t.history == s.history && t.wake == s.wake
    requires t.journalTools == s.journalTools && t.journalTxs == s.journalTxs && t.carried == s.carried
    ensures GoesOn(env, t, done)
  {
    hide EndedBy, ModelRows, RowsAre, Names, Txs, Breaker, WakeAfter;
  }

  lemma CapStands(env: Env, s: Session, done: seq<ToolCall>, rest: seq<ToolCall>)
    requires GoesOn(env, s, done)
    ensures EndsAfter(env, Carry(env, s, rest), TokenCap, done, rest, false)
    ensures Carry(env, s, rest).executed == |done|
  {
    hide EndedBy, ModelRows, RowsAre, Names, Txs, Breaker, WakeAfter, WakeCarried, CarriedOf, Carry;
    CarryIs(env, s, rest);
    CarrySetsTheWake(env, s, rest);
  }

  lemma ErrorStands(env: Env, s: Session, done: seq<ToolCall>)
    requires GoesOn(env, s, done)
    ensures EndsAfter(env, s, Errors, done, [], false) && s.executed == |done|
  {
    hide EndedBy, ModelRows, RowsAre, Names, Txs, Breaker, WakeAfter, WakeCarried, CarriedOf;
  }

  // The last answer was heard, and asked for `calls` after `done`.
  ghost predicate Heard(env: Env, s: Session, done: seq<ToolCall>, calls: seq<ToolCall>) {
    && s.requestSeq > 0 && Asked(env, s.requestSeq - 1) == done && CallsOf(env, s.requestSeq) == calls
    && GoesOn(env, s, done)
  }

  lemma CapEnds(env: Env, s: Session, done: seq<ToolCall>, calls: seq<ToolCall>)
    requires Heard(env, s, done, calls)
    ensures EndsAsAsked(env, Carry(env, s, calls), TokenCap)
  {
    hide GoesOn, EndsAfter, EndsAsAsked, Asked, Carry, CallsOf;
    CapStands(env, s, done, calls);
    CarrySetsTheWake(env, s, calls);
    EndsOutside(env, Carry(env, s, calls), TokenCap, done, calls);
  }

  lemma TextEnds(env: Env, s: Session, done: seq<ToolCall>, t: Session)
    requires Heard(env, s, done, []) && t == s.(errors := t.errors, messages := t.messages)
    ensures EndsAsAsked(env, t, Errors) && GoesOn(env, t, Asked(env, t.requestSeq))
  {
    hide GoesOn, EndsAfter, EndsAsAsked, CallsOf;
    ListenStands(env, s, done, t);
    ErrorStands(env, t, done);
    EndsOutside(env, t, Errors, done, []);
    assert done + [] == done;
  }

  lemma BatchEnds(env: Env, s: Session, done: seq<ToolCall>, calls: seq<ToolCall>)
    requires Heard(env, s, done, calls)
    ensures var (t, reason) := Batch(env, s, calls);
            if reason.None? then GoesOn(env, t, Asked(env, t.requestSeq)) else EndsAsAsked(env, t, reason.value)
  {
    hide GoesOn, EndsAfter, EndsAsAsked, Batch, CallsOf;
    BatchStands(env, s, calls, done);
    LoopBounds.BatchSendsNothing(env, s, calls);
    GoesOnCounts(env, s, done);
    var (t, reason) := Batch(env, s, calls);
    if reason.Some? {
      EndsInBatch(env, t, reason.value, done, calls);
    }
  }

  lemma GoesOnCounts(env: Env, s: Session, done: seq<ToolCall>)
    requires GoesOn(env, s, done)
    ensures s.executed == |done|
  {
  }

  lemma TurnStands(env: Env, s: Session)
    requires GoesOn(env, s, Asked(env, s.requestSeq))
    ensures var (t, reason) := TakeTurn(env, s);
            if reason.None? then GoesOn(env, t, Asked(env, t.requestSeq)) else EndsAsAsked(env, t, reason.value)
  {
    hide GoesOn, EndsAfter, EndsAsAsked, AskModel, Batch, Carry, CallsOf;
    var done := Asked(env, s.requestSeq);
    AskModelAsks(env, s, 0);
    AskModelKeeps(env, s, 0);
    var (s1, response) := AskModel(env, s, 0);
    ListenStands(env, s, done, s1);
    if response.None? {
      ErrorStands(env, s1, done);
      EndsOutside(env, s1, Errors, done, []);
    } else {
      var calls := response.value.calls;
      var s2 := Listen(s1, response.value);
      ListenStands(env, s, done, s2);
      CapEnds(env, s2, done, calls);
      if calls == [] {
        var s3 := s2.(errors := s2.errors + 1);
        TextEnds(env, s2, done, s3);
        TextEnds(env, s2, done, s3.(messages := s3.messages + [UserMessage(env.continuation)]));
      } else {
        BatchEnds(env, s2, done, calls);
      }
    }
  }

  // --- a session ------------------------------------------------------------------------------------

  lemma {:induction false} TurnsStand(env: Env, s: Session)
    requires GoesOn(env, s, Asked(env, s.requestSeq))
    ensures EndsAsAsked(env, Turns(env, s).0, Turns(env, s).1)
    decreases AtLeastZero(env.caps.sessionTools - s.executed), AtLeastZero(env.caps.consecutiveErrors - s.errors)
  {
    hide GoesOn, EndsAsAsked, Asked, TakeTurn;
    TurnProgress(env, s);
    TurnStands(env, s);
    if TakeTurn(env, s).1.None? {
      TurnsStand(env, TakeTurn(env, s).0);
    }
  }

  lemma {:induction false} InjectionsStand(env: Env, s: Session, injections: seq<Injection>)
    requires GoesOn(env, s, [])
    ensures var t := InjectAll(env, s, injections); GoesOn(env, t, []) && t.requestSeq == s.requestSeq
  {
    if injections != [] {
      var n := |injections| - 1;
      var i := injections[n];
      InjectionsStand(env, s, injections[..n]);
      var t := InjectAll(env, s, injections[..n]);
      OneMoreRow(t.log, ToolRow(env.session, Some(t.callSeq + 1), i.call.name, false, i.ok, false, []), env.session);
    }
  }

  lemma SessionStands(env: Env, log: Log, usd: real, tokens: int)
    requires ModelRows(log, env.session) == []
    ensures EndsAsAsked(env, WholeSession(env, log, usd, tokens).0, WholeSession(env, log, usd, tokens).1)
  {
    hide EndsAsAsked, Turns, InjectAll, ModelRows;
    var s := Begin(env, log, usd, tokens);
    InjectionsStand(env, s, env.injections);
    TurnsStand(env, InjectAll(env, s, env.injections));
  }

  // The calls that have a row: the executed ones, and the rest when the agent ended the session.
  function Logged(env: Env, s: Session): seq<ToolCall> {
    var asked := Asked(env, s.requestSeq);
    if s.ended || s.executed > |asked| then asked else asked[..s.executed]
  }

  // What a session executes is a prefix of what its answers asked for, in order, missing
  // calls of the last answer only; each executed call has its row, with its outcome, and
  // the others have one, as skipped, exactly when the agent ended the session, which is when
  // the last executed call, and no other, is an accepted `end_session`.
  lemma CallsAreExecutedInOrder(env: Env, log: Log, usd: real, tokens: int)
    requires ModelRows(log, env.session) == []
    ensures var (s, reason) := WholeSession(env, log, usd, tokens);
            && s.requestSeq > 0
            && |Asked(env, s.requestSeq - 1)| <= s.executed <= |Asked(env, s.requestSeq)|
            && RowsAre(env, ModelRows(s.log, env.session), Logged(env, s), s.executed)
            && (s.ended <==> reason == ByAgent)
            && forall i :: 0 <= i < s.executed ==>
                             (Asked(env, s.requestSeq)[i].name == "end_session" && env.tools(i).ok
                              <==> s.ended && i == s.executed - 1)
  {
    hide WholeSession, ModelRows, RowsAre, Asked, Names, Txs, Breaker, WakeAfter, WakeCarried, CarriedOf;
    SessionStands(env, log, usd, tokens);
    var s := WholeSession(env, log, usd, tokens).0;
    var asked := Asked(env, s.requestSeq);
    assert asked[..s.executed] + asked[s.executed..] == asked;
    assert asked[..s.executed] + [] == asked[..s.executed];
    assert EndedBy(env, asked[..s.executed], s.ended);
    assert forall i :: 0 <= i < s.executed ==> asked[..s.executed][i] == asked[i];
  }

  // --- the breaker's history -----------------------------------------------------------------------

  // Whether the last executed call was not judged: it ended the session, or brought the
  // errors to their cap.
  predicate LastIsUnjudged(env: Env, s: Session, reason: Reason)
    requires s.requestSeq > 0
  {
    reason == ByAgent || (reason == Errors && s.executed > |Asked(env, s.requestSeq - 1)|)
  }

  // The breaker judged exactly the executed calls that are not waits, in order and with
  // their outcomes, but for that last one.
  lemma BreakerJudgesTheCalls(env: Env, log: Log, usd: real, tokens: int)
    requires ModelRows(log, env.session) == []
    ensures var (s, reason) := WholeSession(env, log, usd, tokens);
            && 0 < s.requestSeq && s.executed <= |Asked(env, s.requestSeq)|
            && (LastIsUnjudged(env, s, reason) ==> s.executed > 0)
            && var judged := if LastIsUnjudged(env, s, reason) then s.executed - 1 else s.executed;
               s.history == Breaker(env, Asked(env, s.requestSeq)[..judged])
  {
    hide WholeSession, ModelRows, Stood, WakeCarried, CarriedOf, WakeAfter, Breaker, Asked;
    SessionStands(env, log, usd, tokens);
    var (s, reason) := WholeSession(env, log, usd, tokens);
    var asked := Asked(env, s.requestSeq);
    if s.executed > 0 {
      assert asked[..s.executed][..s.executed - 1] == asked[..s.executed - 1];
    }
  }

  // --- the next wake -------------------------------------------------------------------------------

  // The wake that the last accepted request among the executed calls set, if there is one.
  ghost predicate IsLastWake(env: Env, done: seq<ToolCall>, wake: Option<int>) {
    match wake
    case None => forall i :: 0 <= i < |done| ==> !SetsWake(env, done[i], env.tools(i))
    case Some(minutes) =>
      exists i :: && 0 <= i < |done| && SetsWake(env, done[i], env.tools(i)) && minutes == Clamped(env, done[i])
                  && forall j :: i < j < |done| ==> !SetsWake(env, done[j], env.tools(j))
  }

  lemma {:induction false} WakeAfterIsLast(env: Env, done: seq<ToolCall>)
    ensures IsLastWake(env, done, WakeAfter(env, done))
  {
    hide SetsWake, Clamped;
    if done != [] {
      var n := |done| - 1;
      if !SetsWake(env, done[n], env.tools(n)) {
        WakeAfterIsLast(env, done[..n]);
        assert forall i :: 0 <= i < n ==> done[..n][i] == done[i];
      }
    }
  }

  // The i-th unexecuted call is the last wake request among them, and a valid one.
  ghost predicate IsCarried(env: Env, rest: seq<ToolCall>, i: int) {
    && 0 <= i < |rest| && rest[i].name == "set_next_wake" && env.wakeOf(rest[i]).Some?
    && forall j :: i < j < |rest| ==> rest[j].name != "set_next_wake"
  }

  lemma {:induction false} LastWakeIs(rest: seq<ToolCall>)
    ensures LastWake(rest).None? ==> forall i :: 0 <= i < |rest| ==> rest[i].name != "set_next_wake"
    ensures LastWake(rest).Some? ==>
              exists i :: 0 <= i < |rest| && rest[i] == LastWake(rest).value && rest[i].name == "set_next_wake"
                          && forall j :: i < j < |rest| ==> rest[j].name != "set_next_wake"
  {
    if rest != [] {
      var n := |rest| - 1;
      if rest[n].name != SET_NEXT_WAKE {
        LastWakeIs(rest[..n]);
        assert forall i :: 0 <= i < n ==> rest[..n][i] == rest[i];
      }
    }
  }

  // The last wake request among the unexecuted calls is not a valid one.
  ghost predicate IsDiscarded(env: Env, rest: seq<ToolCall>, i: int) {
    && 0 <= i < |rest| && rest[i].name == "set_next_wake" && env.wakeOf(rest[i]).None?
    && forall j :: i < j < |rest| ==> rest[j].name != "set_next_wake"
  }

  lemma CarriedIs(env: Env, wake: Option<int>, rest: seq<ToolCall>)
    ensures (exists i :: IsCarried(env, rest, i)) ==>
              exists i :: IsCarried(env, rest, i) && WakeCarried(env, wake, rest) == Some(Clamped(env, rest[i]))
    ensures !(exists i :: IsCarried(env, rest, i)) ==> WakeCarried(env, wake, rest) == wake
    ensures CarriedOf(env, rest) == Applied <==> exists i :: IsCarried(env, rest, i)
    ensures CarriedOf(env, rest) == Invalid <==> exists i :: IsDiscarded(env, rest, i)
  {
    hide Clamped, LastWake;
    LastWakeIs(rest);
    if LastWake(rest).Some? {
      var i :| 0 <= i < |rest| && rest[i] == LastWake(rest).value && rest[i].name == "set_next_wake"
               && forall j :: i < j < |rest| ==> rest[j].name != "set_next_wake";
      assert env.wakeOf(rest[i]).Some? ==> IsCarried(env, rest, i);
      assert env.wakeOf(rest[i]).None? ==> IsDiscarded(env, rest, i);
      assert forall j :: IsDiscarded(env, rest, j) ==> j == i;
      assert forall j :: IsCarried(env, rest, j) ==> j == i;
    }
  }

  // A cap that ends the session carries the last wake request among the unexecuted calls
  // when that one is valid; otherwise the wake is the last accepted one of the executed
  // calls, or none.
  ghost predicate WakeIsOf(env: Env, reason: Reason, done: seq<ToolCall>, rest: seq<ToolCall>, wake: Option<int>) {
    if CarriesWake(reason) && exists i :: IsCarried(env, rest, i)
    then exists i :: IsCarried(env, rest, i) && wake == Some(Clamped(env, rest[i]))
    else IsLastWake(env, done, wake)
  }

  lemma WakeIsTheLastRequest(env: Env, log: Log, usd: real, tokens: int)
    requires ModelRows(log, env.session) == []
    ensures var (s, reason) := WholeSession(env, log, usd, tokens);
            && s.executed <= |Asked(env, s.requestSeq)|
            && WakeIsOf(env, reason, Asked(env, s.requestSeq)[..s.executed], Asked(env, s.requestSeq)[s.executed..],
                        s.wake)
    ensures var (s, reason) := WholeSession(env, log, usd, tokens);
            && s.executed <= |Asked(env, s.requestSeq)|
            && var rest := Asked(env, s.requestSeq)[s.executed..];
               && (s.carried == Applied <==> CarriesWake(reason) && exists i :: IsCarried(env, rest, i))
               && (s.carried == Invalid <==> CarriesWake(reason) && exists i :: IsDiscarded(env, rest, i))
    ensures var wake := WholeSession(env, log, usd, tokens).0.wake;
            env.caps.wakeMin <= env.caps.wakeMax && wake.Some? ==> env.caps.wakeMin <= wake.value <= env.caps.wakeMax
  {
    hide WholeSession, Stood, WakeCarried, CarriedOf, Breaker, WakeAfter, Asked;
    SessionStands(env, log, usd, tokens);
    var s := WholeSession(env, log, usd, tokens).0;
    var done, rest := Asked(env, s.requestSeq)[..s.executed], Asked(env, s.requestSeq)[s.executed..];
    WakeAfterIsLast(env, done);
    CarriedIs(env, WakeAfter(env, done), rest);
  }

  // --- the journal, at every cut ---------------------------------------------------------------------

  lemma {:induction false} RowsOfACut(log: Log, k: nat, session: nat)
    requires k <= |log|
    ensures ModelRows(log[..k], session) <= ModelRows(log, session)
  {
    if k == |log| {
      assert log[..k] == log;
    } else {
      var n := |log| - 1;
      RowsOfACut(log[..n], k, session);
      assert log[..n][..k] == log[..k];
    }
  }

  // What a log whose model rows are those of `calls` rebuilds to.
  lemma {:induction false} RebuiltFromRows(env: Env, log: Log, calls: seq<ToolCall>, executed: nat)
    requires RowsAre(env, ModelRows(log, env.session), calls, executed)
    ensures RebuiltTools(log, env.session) == Names(calls)
    ensures RebuiltTxs(log, env.session) == Txs(env, if executed < |calls| then calls[..executed] else calls)
    decreases |log|
  {
    hide HashesOf, Collect;
    if log != [] {
      var n := |log| - 1;
      if ModelRow(log[n], env.session) {
        var m := |calls| - 1;
        assert ModelRows(log[..n], env.session) == ModelRows(log, env.session)[..m];
        RebuiltFromRows(env, log[..n], calls[..m], executed);
        if executed <= m {
          assert calls[..m][..executed] == calls[..executed];
          NothingCollected(RebuiltTxs(log[..n], env.session));
        } else {
          assert executed >= |calls|;
        }
      } else {
        RebuiltFromRows(env, log[..n], calls, executed);
      }
    }
  }

  lemma NothingCollected(known: seq<string>)
    ensures Collect(known, []) == known
  {
  }

  // With `m` rows of calls in the log, it rebuilds to the first `m` calls that have one.
  ghost predicate IsRebuiltFrom(env: Env, s: Session, log: Log) {
    var m := |ModelRows(log, env.session)|;
    && s.executed <= |Logged(env, s)| && m <= |Logged(env, s)|
    && RebuiltTools(log, env.session) == Names(Logged(env, s)[..m])
    && RebuiltTxs(log, env.session) == Txs(env, Logged(env, s)[..if m < s.executed then m else s.executed])
  }

  // The journal rebuilt from a log that has kept a prefix of the session's call rows is
  // of exactly the calls whose rows it kept, and of their transactions.
  lemma RebuiltFromPart(env: Env, log: Log, usd: real, tokens: int, part: Log)
    requires ModelRows(log, env.session) == []
    requires ModelRows(part, env.session) <= ModelRows(WholeSession(env, log, usd, tokens).0.log, env.session)
    ensures var s := WholeSession(env, log, usd, tokens).0;
            IsRebuiltFrom(env, s, part)
  {
    hide WholeSession, ModelRows, RebuiltTools, RebuiltTxs, Names, Txs, Asked;
    CallsAreExecutedInOrder(env, log, usd, tokens);
    var s := WholeSession(env, log, usd, tokens).0;
    var calls, m := Logged(env, s), |ModelRows(part, env.session)|;
    RebuiltFromRows(env, part, calls[..m], s.executed);
    if s.executed < m {
      assert calls[..m][..s.executed] == calls[..s.executed];
    }
  }

  // Wherever the session's log is cut, the journal rebuilt from it has the calls whose
  // rows it kept.
  lemma RebuiltAtEveryCut(env: Env, log: Log, usd: real, tokens: int, k: nat)
    requires ModelRows(log, env.session) == []
    requires k <= |WholeSession(env, log, usd, tokens).0.log|
    ensures var s := WholeSession(env, log, usd, tokens).0;
            IsRebuiltFrom(env, s, s.log[..k])
  {
    hide WholeSession, ModelRows, IsRebuiltFrom;
    RowsOfACut(WholeSession(env, log, usd, tokens).0.log, k, env.session);
    RebuiltFromPart(env, log, usd, tokens, WholeSession(env, log, usd, tokens).0.log[..k]);
  }

  // The live journal has the executed calls and their transactions.
  lemma LiveJournalIsOfTheCalls(env: Env, log: Log, usd: real, tokens: int)
    requires ModelRows(log, env.session) == []
    ensures var s := WholeSession(env, log, usd, tokens).0;
            && s.executed <= |Logged(env, s)|
            && s.journalTools == Names(Logged(env, s)[..s.executed])
            && s.journalTxs == Txs(env, Logged(env, s)[..s.executed])
  {
    hide WholeSession, ModelRows, Names, Txs, RowsAre;
    SessionStands(env, log, usd, tokens);
    var s := WholeSession(env, log, usd, tokens).0;
    assert Logged(env, s)[..s.executed] == Asked(env, s.requestSeq)[..s.executed];
  }

  lemma {:induction false} CollectKeeps(known: seq<string>, hashes: seq<string>)
    ensures known <= Collect(known, hashes)
  {
    if hashes != [] {
      CollectKeeps(known, hashes[..|hashes| - 1]);
    }
  }

  lemma {:induction false} TxsOfPrefix(env: Env, done: seq<ToolCall>, k: nat)
    requires k <= |done|
    ensures Txs(env, done[..k]) <= Txs(env, done)
  {
    hide Collect, HashesOf;
    if k == |done| {
      assert done[..k] == done;
    } else {
      var n := |done| - 1;
      TxsOfPrefix(env, done[..n], k);
      assert done[..n][..k] == done[..k];
      CollectKeeps(Txs(env, done[..n]), HashesOf(env.tools(n)));
    }
  }

  // A cut only ever loses the newest transactions.
  lemma CutLosesTheNewest(env: Env, log: Log, usd: real, tokens: int, k: nat)
    requires ModelRows(log, env.session) == []
    requires k <= |WholeSession(env, log, usd, tokens).0.log|
    ensures var s := WholeSession(env, log, usd, tokens).0;
            RebuiltTxs(s.log[..k], env.session) <= s.journalTxs
  {
    hide WholeSession, ModelRows, RebuiltTools, RebuiltTxs, Names, Txs, Logged;
    var s := WholeSession(env, log, usd, tokens).0;
    RebuiltAtEveryCut(env, log, usd, tokens, k);
    LiveJournalIsOfTheCalls(env, log, usd, tokens);
    var m := |ModelRows(s.log[..k], env.session)|;
    if m < s.executed {
      TxsOfPrefix(env, Logged(env, s)[..s.executed], m);
      assert Logged(env, s)[..s.executed][..m] == Logged(env, s)[..m];
    }
  }

  // --- the transactions, each once ---------------------------------------------------------------------

  // What the results of the first `n` executed calls name: the one transaction, then the
  // receipts, some of them nothing.
  function Mentions(env: Env, n: nat): seq<Option<string>> {
    if n == 0 then [] else Mentions(env, n - 1) + [env.tools(n - 1).txHash] + env.tools(n - 1).txs
  }

  // `x` is named before `y` is named first.
  ghost predicate NamedBefore(mentions: seq<Option<string>>, x: string, y: string) {
    exists p :: 0 <= p < |mentions| && mentions[p] == Some(x) && Some(y) !in mentions[..p + 1]
  }

  // The names in `mentions`, each once, in the order of their first mention.
  ghost predicate AreFirstMentions(mentions: seq<Option<string>>, names: seq<string>) {
    && (forall x :: x in names <==> x != "" && Some(x) in mentions)
    && (forall i, j :: 0 <= i < j < |names| ==> names[i] != names[j] && NamedBefore(mentions, names[i], names[j]))
  }

  lemma NamedBeforeStays(mentions: seq<Option<string>>, m: Option<string>, x: string, y: string)
    requires NamedBefore(mentions, x, y)
    ensures NamedBefore(mentions + [m], x, y)
  {
    var p :| 0 <= p < |mentions| && mentions[p] == Some(x) && Some(y) !in mentions[..p + 1];
    assert (mentions + [m])[p] == Some(x) && (mentions + [m])[..p + 1] == mentions[..p + 1];
  }

  lemma NamedSooner(mentions: seq<Option<string>>, m: Option<string>, x: string, y: string)
    requires Some(x) in mentions && Some(y) !in mentions
    ensures NamedBefore(mentions + [m], x, y)
  {
    var p :| 0 <= p < |mentions| && mentions[p] == Some(x);
    assert (mentions + [m])[p] == Some(x) && (mentions + [m])[..p + 1] == mentions[..p + 1];
  }

  // One more mention: a new name is added at the end.
  lemma OneMoreMention(mentions: seq<Option<string>>, names: seq<string>, m: Option<string>)
    requires AreFirstMentions(mentions, names)
    ensures var added := m.Some? && m.value != "" && m.value !in names;
            AreFirstMentions(mentions + [m], if added then names + [m.value] else names)
  {
    var added := m.Some? && m.value != "" && m.value !in names;
    var after := if added then names + [m.value] else names;
    forall i, j | 0 <= i < j < |after|
      ensures after[i] != after[j] && NamedBefore(mentions + [m], after[i], after[j])
    {
      if j < |names| {
        NamedBeforeStays(mentions, m, names[i], names[j]);
      } else {
        assert names[i] in names;
        NamedSooner(mentions, m, names[i], m.value);
      }
    }
  }

  lemma NonEmptyOf(candidates: seq<Option<string>>)
    requires candidates != []
    ensures var c := candidates[|candidates| - 1];
            NonEmpty(candidates)
            == NonEmpty(candidates[..|candidates| - 1]) + if c.Some? && c.value != "" then [c.value] else []
  {
  }

  lemma CollectOne(known: seq<string>, hashes: seq<string>, h: string)
    ensures Collect(known, hashes + [h])
            == if h in Collect(known, hashes) then Collect(known, hashes) else Collect(known, hashes) + [h]
  {
    assert (hashes + [h])[..|hashes|] == hashes;
  }

  lemma NothingNamed(known: seq<string>)
    ensures Collect(known, NonEmpty([])) == known
  {
  }

  lemma {:induction false} CollectsFirstMentions(mentions: seq<Option<string>>, known: seq<string>,
                                                 candidates: seq<Option<string>>)
    requires AreFirstMentions(mentions, known)
    ensures AreFirstMentions(mentions + candidates, Collect(known, NonEmpty(candidates)))
  {
    hide AreFirstMentions, Collect, NonEmpty;
    if candidates == [] {
      NothingNamed(known);
      assert mentions + candidates == mentions;
    } else {
      var n := |candidates| - 1;
      var c := candidates[n];
      CollectsFirstMentions(mentions, known, candidates[..n]);
      OneMoreMention(mentions + candidates[..n], Collect(known, NonEmpty(candidates[..n])), c);
      NonEmptyOf(candidates);
      if c.Some? && c.value != "" {
        CollectOne(known, NonEmpty(candidates[..n]), c.value);
      } else {
        assert NonEmpty(candidates[..n]) + [] == NonEmpty(candidates[..n]);
      }
      assert mentions + candidates == mentions + candidates[..n] + [c];
    }
  }

  lemma {:induction false} TxsAreFirstMentions(env: Env, done: seq<ToolCall>)
    ensures AreFirstMentions(Mentions(env, |done|), Txs(env, done))
  {
    hide AreFirstMentions, Collect, NonEmpty;
    if done == [] {
      NothingMentioned();
    } else {
      var n := |done| - 1;
      var o := env.tools(n);
      TxsAreFirstMentions(env, done[..n]);
      CollectsFirstMentions(Mentions(env, n), Txs(env, done[..n]), [o.txHash] + o.txs);
      assert Mentions(env, n) + ([o.txHash] + o.txs) == Mentions(env, n) + [o.txHash] + o.txs;
    }
  }

  lemma NothingMentioned()
    ensures AreFirstMentions([], [])
  {
  }

  // The live journal has every transaction that a result named, once, in the order of the
  // first mentions.
  lemma JournalTxsAreFirstMentions(env: Env, log: Log, usd: real, tokens: int)
    requires ModelRows(log, env.session) == []
    ensures var s := WholeSession(env, log, usd, tokens).0;
            AreFirstMentions(Mentions(env, s.executed), s.journalTxs)
  {
    hide WholeSession, ModelRows, AreFirstMentions, Mentions, Txs, Names, Logged, LastWake;
    LiveJournalIsOfTheCalls(env, log, usd, tokens);
    var s := WholeSession(env, log, usd, tokens).0;
    TxsAreFirstMentions(env, Logged(env, s)[..s.executed]);
  }
}
