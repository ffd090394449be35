/**
 The keeper's receipts in the log of a run: what each invocation reads starts from the
 hashes already in its log (runner.py `_keeper_read`, state.py `keeper_tx_hashes`), so no
 crash schedule records a hash twice, whatever the keeper answers and whatever cursor the
 cache holds.
 */
module LifecycleKeeper {
  import opened Options
  import opened Telemetry
  import opened Recovery
  import opened Lifecycle
  import opened LifecycleSafety
  import AgentLoop
  import Keeper
  import KeeperRun

  // --- the hashes in a log ----------------------------------------------------------------------

  function KeeperList(log: Log): seq<string> {
    if log == [] then []
    else KeeperList(log[..|log| - 1]) + if log[|log| - 1].KeeperRow? then [log[|log| - 1].hash] else []
  }

  function KeeperHashes(log: Log): (hashes: set<string>)
    ensures forall h :: h in hashes <==> h in KeeperList(log)
  {
    set h | h in KeeperList(log)
  }

  ghost predicate AllDistinct(hashes: seq<string>) {
    forall i, j :: 0 <= i < j < |hashes| ==> hashes[i] != hashes[j]
  }

  // --- what one read of the ledger adds -----------------------------------------------------------

  function HashList(events: seq<Keeper.KeeperTx>): (hashes: seq<string>)
    ensures |hashes| == |events| && forall i :: 0 <= i < |hashes| ==> hashes[i] == events[i].hash
  {
    seq(|events|, i requires 0 <= i < |events| => events[i].hash)
  }

  // The receipts that a read of the ledger returns when it starts from these hashes.
  ghost predicate IsReadFrom(receipts: seq<string>, recorded: set<string>) {
    exists answers: Keeper.Answers, books, cursor ::
      receipts == HashList(Keeper.ReadBooks(answers, 0, books, Keeper.Reading(cursor, recorded, [])).1.events)
  }

  // The events so far are of distinct hashes that were not recorded before the read.
  ghost predicate AreNew(r: Keeper.Reading, recorded: set<string>) {
    && Keeper.Distinct(r.events) && Keeper.Hashes(r.events) !! recorded
    && r.emitted == recorded + Keeper.Hashes(r.events)
  }

  lemma TakeIsNew(book: string, rows: seq<Keeper.Row>, r: Keeper.Reading, recorded: set<string>)
    requires AreNew(r, recorded)
    ensures AreNew(Keeper.TakeInto(book, rows, r), recorded)
  {
    hide Keeper.Distinct, Keeper.Hashes, Keeper.NewEvents, Keeper.Finals, Keeper.WithBook;
    var found := Keeper.NewEvents(book, rows, r.emitted);
    Keeper.NewEventsOnce(book, rows, r.emitted);
    Keeper.HashesConcat(r.events, found);
    KeeperRun.DistinctConcat(r.events, found);
  }

  lemma ReadBookIsNew(answers: Keeper.Answers, n: nat, book: string, r: Keeper.Reading, recorded: set<string>)
    requires AreNew(r, recorded)
    ensures AreNew(Keeper.ReadBook(answers, n, book, r).1, recorded)
  {
    hide AreNew, Keeper.TakeInto;
    var first := answers(n, book, Keeper.Since(r.cursor, book));
    if first.Some? {
      TakeIsNew(book, first.value, r, recorded);
      var second := answers(n + 1, book, None);
      if second.Some? {
        TakeIsNew(book, second.value, Keeper.TakeInto(book, first.value, r), recorded);
      }
    }
  }

  lemma {:induction false} ReadBooksAreNew(answers: Keeper.Answers, n: nat, books: seq<string>, r: Keeper.Reading,
                                           recorded: set<string>)
    requires AreNew(r, recorded)
    ensures AreNew(Keeper.ReadBooks(answers, n, books, r).1, recorded)
    decreases |books|
  {
    hide AreNew, Keeper.ReadBook;
    if books != [] {
      var (n1, r1) := Keeper.ReadBook(answers, n, books[0], r);
      ReadBookIsNew(answers, n, books[0], r, recorded);
      ReadBooksAreNew(answers, n1, books[1..], r1, recorded);
    }
  }

  // Whatever the keeper answers, a read returns distinct hashes that were not recorded.
  lemma ReadReceiptsAreNew(receipts: seq<string>, recorded: set<string>)
    requires IsReadFrom(receipts, recorded)
    ensures AllDistinct(receipts)
    ensures forall h :: h in receipts ==> h !in recorded
  {
    hide Keeper.ReadBooks;
    var answers: Keeper.Answers, books, cursor :|
      receipts == HashList(Keeper.ReadBooks(answers, 0, books, Keeper.Reading(cursor, recorded, [])).1.events);
    ReadBooksAreNew(answers, 0, books, Keeper.Reading(cursor, recorded, []), recorded);
    var events := Keeper.ReadBooks(answers, 0, books, Keeper.Reading(cursor, recorded, [])).1.events;
    forall h | h in receipts
      ensures h !in recorded
    {
      var i :| 0 <= i < |receipts| && receipts[i] == h;
      assert events[i].hash in Keeper.Hashes(events);
    }
  }

  // --- the keeper rows of one invocation ------------------------------------------------------------

  lemma {:induction false} KeeperListConcat(a: Log, b: Log)
    ensures KeeperList(a + b) == KeeperList(a) + KeeperList(b)
  {
    if b == [] {
      assert a + b == a;
    } else {
      assert (a + b)[..|a + b| - 1] == a + b[..|b| - 1];
      KeeperListConcat(a, b[..|b| - 1]);
    }
  }

  lemma {:induction false} NoKeeperRows(rows: Log)
    requires forall i :: 0 <= i < |rows| ==> !rows[i].KeeperRow?
    ensures KeeperList(rows) == []
  {
    if rows != [] {
      NoKeeperRows(rows[..|rows| - 1]);
    }
  }

  lemma {:induction false} KeeperRowsAre(session: nat, receipts: seq<string>)
    ensures KeeperList(KeeperRows(session, receipts)) == receipts
  {
    if receipts != [] {
      var n := |receipts| - 1;
      assert KeeperRows(session, receipts)[..n] == KeeperRows(session, receipts[..n]);
      KeeperRowsAre(session, receipts[..n]);
    }
  }

  lemma OpeningKeeperRows(config: Config, inputs: Inputs, session: nat)
    ensures KeeperList(OpeningRows(config, inputs, session)) == if config.keeper then inputs.receipts else []
  {
    hide KeeperList;
    var shell := if config.shell then [ShellState(session)] else [];
    var rows := if config.keeper then KeeperRows(session, inputs.receipts) else [];
    NoKeeperRows([SessionStart(session, inputs.now)]);
    NoKeeperRows(shell);
    NoKeeperRows([]);
    KeeperRowsAre(session, inputs.receipts);
    KeeperListConcat(shell, rows);
    KeeperListConcat([SessionStart(session, inputs.now)], shell + rows);
  }

  lemma EndOfRunKeeperRows(config: Config, inputs: Inputs, session: nat)
    ensures KeeperList(EndOfRunRows(config, inputs, session)) == if config.keeper then inputs.receipts else []
  {
    hide KeeperList;
    var shell := if config.shell then [ShellState(session)] else [];
    var stop := [ToolRow(session, None, KEEPER_STOP_ALL, false, inputs.stopOk, false, []),
                 ToolRow(session, None, KEEPER_REVOKE, false, inputs.revokeOk, false, [])];
    NoKeeperRows(shell);
    NoKeeperRows(stop);
    NoKeeperRows([]);
    KeeperRowsAre(session, inputs.receipts);
    KeeperListConcat(stop, KeeperRows(session, inputs.receipts));
    KeeperListConcat(if config.keeper then stop + KeeperRows(session, inputs.receipts) else [], shell);
  }

  lemma ServedKeeperRows(config: Config, inputs: Inputs, state: RunState, log: Log)
    requires inputs.promptsPresent && inputs.harness == Serves
    ensures KeeperList(Rows(SessionEffects(config, inputs, state, log)))
            == if config.keeper then inputs.receipts else []
  {
    hide KeeperList, Ran, OpeningRows, Rows, Emits;
    var session := state.counter + 1;
    var opening := OpeningRows(config, inputs, session);
    var (s, reason) := Ran(config, inputs, state, log);
    RanExtends(config, inputs, state, log);
    SessionRowsAre(config, inputs, state, log);
    var loop := LoopRows(log + opening, s.log);
    var closing := ClosingRows(config, session, reason, AgentLoop.LoopTotals(s));
    var next := [ScheduleNext(session, WakeAt(config, inputs, s.wake))];
    OpeningKeeperRows(config, inputs, session);
    NoKeeperRows(loop);
    NoKeeperRows(closing);
    NoKeeperRows(next);
    KeeperListConcat(opening, loop);
    KeeperListConcat(opening + loop, closing);
    KeeperListConcat(opening + loop + closing, next);
  }

  lemma CompletionKeeperRows(config: Config, inputs: Inputs, state: RunState, log: Log, reason: string)
    ensures KeeperList(CompletionRows(config, inputs, state, log, reason))
            == if config.keeper then inputs.receipts else []
  {
    hide KeeperList, EndOfRunRows, CountCalls;
    var end := EndOfRunRows(config, inputs, state.counter);
    var last := CompletionRows(config, inputs, state, log, reason)[|end|..];
    EndOfRunKeeperRows(config, inputs, state.counter);
    NoKeeperRows(last);
    KeeperListConcat(end, last);
    assert CompletionRows(config, inputs, state, log, reason) == end + last;
  }

  // An invocation records the receipts it read, once each, or none.
  ghost predicate RecordsReceipts(rows: Log, receipts: seq<string>) {
    KeeperList(rows) == [] || KeeperList(rows) == receipts
  }

  lemma MainKeeperRows(config: Config, inputs: Inputs, state: RunState, log: Log)
    ensures RecordsReceipts(Rows(MainEffects(config, inputs, state, log)), inputs.receipts)
  {
    hide KeeperList, Rows, Emits, CompletionRows, AbortRows;
    var session := state.counter + 1;
    var stop := Stop(config, inputs, state);
    if inputs.kind == EndRun {
      CompletionKeeperRows(config, inputs, state, log, "manual");
      RowsOfEmits(CompletionRows(config, inputs, state, log, "manual"));
    } else if stop.Some? {
      CompletionKeeperRows(config, inputs, state, log, StopText(stop.value));
      RowsOfEmits(CompletionRows(config, inputs, state, log, StopText(stop.value)));
    } else if !inputs.promptsPresent {
      NothingEmitted();
    } else {
      match inputs.harness {
        case SpawnFails =>
          AbortHasNoKeeperRows(config, inputs, session);
          RowsOfEmits(AbortRows(config, inputs, session));
        case PairingRefused =>
          RowsOfEmits([SessionRefused(session - 1)]);
          assert Emits([SessionRefused(session - 1)]) == [Emit(SessionRefused(session - 1))];
          NoKeeperRows([SessionRefused(session - 1)]);
        case Serves =>
          ServedKeeperRows(config, inputs, state, log);
      }
    }
  }

  lemma NothingEmitted()
    ensures Rows([]) == [] && KeeperList([]) == []
  {
  }

  lemma AbortHasNoKeeperRows(config: Config, inputs: Inputs, session: nat)
    ensures KeeperList(AbortRows(config, inputs, session)) == []
  {
    NoKeeperRows(AbortRows(config, inputs, session));
  }

  lemma RecoveryHasNoKeeperRows(log: Log)
    ensures KeeperList(RecoveryRows(log)) == []
  {
    hide RecoveryRows;
    RecoveryRowsAre(log);
    NoKeeperRows(RecoveryRows(log));
  }

  lemma InvocationKeeperRows(config: Config, inputs: Inputs, w: World)
    ensures RecordsReceipts(Rows(Invocation(config, inputs, w)), inputs.receipts)
  {
    hide KeeperList, Rows, Fold, RecoveryEffects, RecoveryRows, MainEffects;
    NothingEmitted();
    RowsOfRecovery(w);
    RecoveryHasNoKeeperRows(w.log);
    var log := w.log + RecoveryRows(w.log);
    MainKeeperRows(config, inputs, Fold(w.log), log);
    RowsConcat(RecoveryEffects(w), MainEffects(config, inputs, Fold(w.log), log));
    KeeperListConcat(RecoveryRows(w.log), Rows(MainEffects(config, inputs, Fold(w.log), log)));
  }

  // --- whole runs -------------------------------------------------------------------------------------

  lemma {:induction false} KeeperListPrefix(a: Log, b: Log)
    requires a <= b
    ensures KeeperList(a) <= KeeperList(b)
  {
    KeeperListConcat(a, b[|a|..]);
    assert b == a + b[|a|..];
  }

  // However far an attempt comes, it records a prefix of what it read.
  lemma AttemptRecordsAPrefix(config: Config, a: Attempt, w: World)
    ensures exists k :: 0 <= k <= |a.inputs.receipts|
                     && KeeperList(Apply(w, Done(config, a, w)).log) == KeeperList(w.log) + a.inputs.receipts[..k]
  {
    hide KeeperList, Rows, Invocation;
    var program := Invocation(config, a.inputs, w);
    var done := Done(config, a, w);
    assert program[..|program|] == program;
    RowsOfPrefix(program, if a.cut < |program| then a.cut else |program|);
    KeeperListPrefix(Rows(done), Rows(program));
    InvocationKeeperRows(config, a.inputs, w);
    KeeperListConcat(w.log, Rows(done));
    var k := |KeeperList(Rows(done))|;
    assert KeeperList(Rows(done)) == a.inputs.receipts[..k];
  }

  lemma DistinctPrefix(recorded: seq<string>, receipts: seq<string>, k: nat)
    requires AllDistinct(recorded) && AllDistinct(receipts) && k <= |receipts|
    requires forall h :: h in receipts ==> h !in recorded
    ensures AllDistinct(recorded + receipts[..k])
  {
    var all := recorded + receipts[..k];
    forall i, j | 0 <= i < j < |all|
      ensures all[i] != all[j]
    {
      if i < |recorded| <= j {
        assert receipts[j - |recorded|] in receipts && recorded[i] in recorded;
      }
    }
  }

  // Every read of the run started from the hashes in the log it found.
  ghost predicate ReadsFromTheLog(config: Config, attempts: seq<Attempt>) {
    forall i :: 0 <= i < |attempts| ==>
                  IsReadFrom(attempts[i].inputs.receipts, KeeperHashes(After(config, attempts[..i]).log))
  }

  // Over every crash schedule, no transaction of the keeper is in the log twice.
  lemma {:induction false} KeeperRowsAreDistinct(config: Config, attempts: seq<Attempt>)
    requires ReadsFromTheLog(config, attempts)
    ensures AllDistinct(KeeperList(After(config, attempts).log))
  {
    hide KeeperList, Apply, Done, IsReadFrom;
    if attempts == [] {
      NothingEmitted();
    } else {
      var n := |attempts| - 1;
      var w := After(config, attempts[..n]);
      EarlierReads(config, attempts, n);
      KeeperRowsAreDistinct(config, attempts[..n]);
      assert IsReadFrom(attempts[n].inputs.receipts, KeeperHashes(w.log));
      ReadReceiptsAreNew(attempts[n].inputs.receipts, KeeperHashes(w.log));
      AttemptRecordsAPrefix(config, attempts[n], w);
      var k :| 0 <= k <= |attempts[n].inputs.receipts|
               && KeeperList(Apply(w, Done(config, attempts[n], w)).log)
                  == KeeperList(w.log) + attempts[n].inputs.receipts[..k];
      DistinctPrefix(KeeperList(w.log), attempts[n].inputs.receipts, k);
    }
  }

  lemma EarlierReads(config: Config, attempts: seq<Attempt>, n: nat)
    requires ReadsFromTheLog(config, attempts) && n <= |attempts|
    ensures ReadsFromTheLog(config, attempts[..n])
  {
    hide After, IsReadFrom, KeeperHashes;
    forall i | 0 <= i < n
      ensures IsReadFrom(attempts[..n][i].inputs.receipts, KeeperHashes(After(config, attempts[..n][..i]).log))
    {
      assert attempts[..n][..i] == attempts[..i];
      assert attempts[..n][i] == attempts[i];
    }
  }
}
