/**
 The keeper record over a whole run: ledgers that grow, reads that may fail,
 processes that may die between any two steps, and a cursor cache that may be
 lost.  The process order is runner.py's: carry the cached cursor, fold the
 recorded hashes from the log, read the books, emit one event per new receipt,
 and only then save the cursor.
 */
module KeeperRun {
  import opened Options
  import opened Keeper

  // `again` names the book whose whole re-read is due next; `seen` keeps, for each
  // book read completely, the rows the keeper had at that moment.
  datatype Process =
    | Idle
    | Collecting(r: Reading, again: Option<BookId>, seen: map<BookId, seq<Row>>)
    | Emitting(cursor: Cursor, todo: seq<KeeperTx>, seen: map<BookId, seq<Row>>)

  datatype World = World(books: map<BookId, seq<Row>>, log: seq<KeeperTx>, cache: Option<Cursor>, process: Process)

  datatype Step =
    | Append(book: BookId, row: Row)   // the keeper writes one ledger row
    | Refresh                          // the runner saves the carried cursor unchanged
    | Begin                            // a session start or the end of the run begins its read
    | FirstRead(book: BookId)          // the read the cursor calls for is answered
    | SecondRead                       // the whole re-read of the same book is answered
    | Finish                           // no further answer comes: every other read failed
    | EmitOne
    | Save
    | Crash
    | LoseCache

  const START := World(map[], [], None, Idle)

  function Rows(books: map<BookId, seq<Row>>, book: BookId): seq<Row> {
    if book in books then books[book] else []
  }

  function Carried(cache: Option<Cursor>): Cursor {
    if cache.Some? then cache.value else EMPTY_CURSOR
  }

  ghost predicate Enabled(w: World, step: Step) {
    match step
    case Append(book, row) => LedgerOk(Rows(w.books, book) + [row])
    case Refresh => w.process.Idle?
    case Begin => w.process.Idle?
    case FirstRead(_) => w.process.Collecting?
    case SecondRead => w.process.Collecting? && w.process.again.Some?
    case Finish => w.process.Collecting?
    case EmitOne => w.process.Emitting? && w.process.todo != []
    case Save => w.process.Emitting? && w.process.todo == []
    case Crash => true
    case LoseCache => true
  }

  function AfterFirst(books: map<BookId, seq<Row>>, p: Process, book: BookId): Process
    requires p.Collecting?
  {
    var rows := Rows(books, book);
    var r' := TakeInto(book, Serve(rows, Since(p.r.cursor, book)), p.r);
    if NeedsAgain(p.r.cursor, r'.cursor, book)
    then Collecting(r', Some(book), p.seen - {book})
    else Collecting(r', None, p.seen[book := rows])
  }

  function AfterSecond(books: map<BookId, seq<Row>>, p: Process): Process
    requires p.Collecting? && p.again.Some?
  {
    var book := p.again.value;
    Collecting(TakeInto(book, Serve(Rows(books, book), None), p.r), None, p.seen[book := Rows(books, book)])
  }

  function Do(w: World, step: Step): World
    requires Enabled(w, step)
  {
    match step
    case Append(book, row) => w.(books := w.books[book := Rows(w.books, book) + [row]])
    case Refresh => w.(cache := Some(Carried(w.cache)))
    case Begin => w.(process := Collecting(Reading(Carried(w.cache), Hashes(w.log), []), None, map[]))
    case FirstRead(book) => w.(process := AfterFirst(w.books, w.process, book))
    case SecondRead => w.(process := AfterSecond(w.books, w.process))
    case Finish => w.(process := Emitting(w.process.r.cursor, w.process.r.events, w.process.seen))
    case EmitOne => w.(log := w.log + [w.process.todo[0]], process := w.process.(todo := w.process.todo[1..]))
    case Save => w.(cache := Some(w.process.cursor), process := Idle)
    case Crash => w.(process := Idle)
    case LoseCache => w.(cache := None)
  }

  // A run is any sequence of steps from the empty world, each enabled where it is taken.
  ghost function After(steps: seq<Step>): Option<World> {
    if steps == [] then Some(START) else
      var before := After(steps[..|steps| - 1]);
      if before.Some? && Enabled(before.value, steps[|steps| - 1])
      then Some(Do(before.value, steps[|steps| - 1])) else None
  }

  ghost predicate IsRun(steps: seq<Step>, w: World) {
    After(steps) == Some(w)
  }

  // --- what every reachable world keeps -----------------------------------------

  function InFlight(p: Process): seq<KeeperTx> {
    match p
    case Idle => []
    case Collecting(r, _, _) => r.events
    case Emitting(_, todo, _) => todo
  }

  ghost predicate AllCovered(books: map<BookId, seq<Row>>, c: Cursor, emitted: set<Hash>) {
    forall book :: Covered(Rows(books, book), c, book, emitted)
  }

  // The event names a final receipt its book really holds, and carries its values.
  ghost predicate Honest(books: map<BookId, seq<Row>>, e: KeeperTx) {
    exists i :: 0 <= i < |Rows(books, e.book)| && Gives(Rows(books, e.book)[i], e)
  }

  ghost predicate SeenRecorded(books: map<BookId, seq<Row>>, seen: map<BookId, seq<Row>>, emitted: set<Hash>) {
    forall book :: book in seen ==> seen[book] <= Rows(books, book) && Finals(seen[book]) <= emitted
  }

  ghost predicate Inv(w: World) {
    var recorded := Hashes(w.log + InFlight(w.process));
    && Distinct(w.log + InFlight(w.process))
    && (forall book :: LedgerOk(Rows(w.books, book)))
    && (forall e :: e in w.log + InFlight(w.process) ==> Honest(w.books, e))
    && AllCovered(w.books, Carried(w.cache), Hashes(w.log))
    && match w.process
       case Idle => true
       case Collecting(r, again, seen) =>
         && r.emitted == recorded
         && AllCovered(w.books, r.cursor, recorded)
         && SeenRecorded(w.books, seen, recorded)
         && (again.Some? ==> Since(r.cursor, again.value).None?)
       case Emitting(cursor, _, seen) =>
         && AllCovered(w.books, cursor, recorded)
         && SeenRecorded(w.books, seen, recorded)
  }

  lemma EmptyCursorCovers(books: map<BookId, seq<Row>>, emitted: set<Hash>)
    ensures AllCovered(books, EMPTY_CURSOR, emitted)
  {
    forall book
      ensures Covered(Rows(books, book), EMPTY_CURSOR, book, emitted)
    {
      assert CoveredTo(Rows(books, book), 0, EMPTY_CURSOR, book, emitted);
    }
  }

  lemma AppendKeepsCovered(books: map<BookId, seq<Row>>, book: BookId, row: Row, c: Cursor, emitted: set<Hash>)
    requires AllCovered(books, c, emitted)
    ensures AllCovered(books[book := Rows(books, book) + [row]], c, emitted)
  {
    var books' := books[book := Rows(books, book) + [row]];
    forall b
      ensures Covered(Rows(books', b), c, b, emitted)
    {
      CoveredGrows(Rows(books, b), Rows(books', b), c, c, b, emitted, emitted);
    }
  }

  lemma AppendKeepsInv(w: World, book: BookId, row: Row)
    requires Inv(w) && Enabled(w, Append(book, row))
    ensures Inv(Do(w, Append(book, row)))
  {
    var w' := Do(w, Append(book, row));
    forall b
      ensures LedgerOk(Rows(w'.books, b))
    {
      assert LedgerOk(Rows(w.books, b));
    }
    AppendKeepsCovered(w.books, book, row, Carried(w.cache), Hashes(w.log));
    if w.process.Collecting? {
      AppendKeepsCovered(w.books, book, row, w.process.r.cursor, w.process.r.emitted);
    } else if w.process.Emitting? {
      AppendKeepsCovered(w.books, book, row, w.process.cursor, Hashes(w.log + w.process.todo));
    }
    forall e | e in w'.log + InFlight(w'.process)
      ensures Honest(w'.books, e)
    {
      assert Honest(w.books, e);
      var i :| 0 <= i < |Rows(w.books, e.book)| && Gives(Rows(w.books, e.book)[i], e);
      assert Rows(w'.books, e.book)[i] == Rows(w.books, e.book)[i];
    }
  }

  // Folding one answer into a read in progress: what it adds is new, honest and
  // covered.
  lemma TakeIsNew(w: World, book: BookId, rows: seq<Row>)
    requires Inv(w) && w.process.Collecting?
    ensures var r' := TakeInto(book, rows, w.process.r);
            && Distinct(w.log + r'.events)
            && Hashes(w.log + r'.events) == r'.emitted
            && w.process.r.emitted <= r'.emitted
  {
    hide AllCovered, SeenRecorded, Honest, NewEvents, Finals, Hashes;
    var r := w.process.r;
    var before, found := w.log + r.events, NewEvents(book, rows, r.emitted);
    NewEventsOnce(book, rows, r.emitted);
    assert w.log + (r.events + found) == before + found;
    HashesConcat(before, found);
    DistinctConcat(before, found);
  }

  lemma DistinctConcat(a: seq<KeeperTx>, b: seq<KeeperTx>)
    requires Distinct(a) && Distinct(b) && Hashes(a) !! Hashes(b)
    ensures Distinct(a + b)
  {
    forall i, j | 0 <= i < j < |a + b|
      ensures (a + b)[i].hash != (a + b)[j].hash
    {
      if i < |a| <= j {
        assert a[i].hash in Hashes(a) && b[j - |a|].hash in Hashes(b);
      }
    }
  }

  lemma TakeIsHonest(w: World, book: BookId, since: Option<int>)
    requires Inv(w) && w.process.Collecting?
    ensures var r' := TakeInto(book, Serve(Rows(w.books, book), since), w.process.r);
            forall e :: e in w.log + r'.events ==> Honest(w.books, e)
  {
    hide AllCovered, SeenRecorded, NewEvents, Finals, Hashes, Serve;
    var r := w.process.r;
    var rows := Serve(Rows(w.books, book), since);
    NewEventsExact(book, rows, r.emitted);
    forall e | e in NewEvents(book, rows, r.emitted)
      ensures Honest(w.books, e)
    {
      var i: nat :| FirstFinalAt(rows, i, e);
      var k := ServedRowIsThere(Rows(w.books, book), since, i);
    }
    assert forall e :: e in w.log + r.events ==> Honest(w.books, e);
  }

  lemma TakeKeepsCovered(w: World, book: BookId)
    requires Inv(w) && w.process.Collecting?
    ensures var r' := TakeInto(book, Serve(Rows(w.books, book), Since(w.process.r.cursor, book)), w.process.r);
            AllCovered(w.books, r'.cursor, r'.emitted)
  {
    hide Finals, Pendings, Serve, NewEvents, SeenRecorded, Honest, Highest;
    var r := w.process.r;
    var r' := TakeInto(book, Serve(Rows(w.books, book), Since(r.cursor, book)), r);
    forall b
      ensures Covered(Rows(w.books, b), r'.cursor, b, r'.emitted)
    {
      assert LedgerOk(Rows(w.books, b)) && Covered(Rows(w.books, b), r.cursor, b, r.emitted);
      if b == book {
        TakeCovers(Rows(w.books, b), r, b);
      } else {
        CoveredGrows(Rows(w.books, b), Rows(w.books, b), r.cursor, r'.cursor, b, r.emitted, r'.emitted);
      }
    }
  }

  lemma TakeKeepsInv(w: World, book: BookId, rows: seq<Row>)
    requires Inv(w) && w.process.Collecting?
    requires rows == Serve(Rows(w.books, book), Since(w.process.r.cursor, book))
    ensures var r' := TakeInto(book, rows, w.process.r);
            && Distinct(w.log + r'.events)
            && Hashes(w.log + r'.events) == r'.emitted
            && (forall e :: e in w.log + r'.events ==> Honest(w.books, e))
            && AllCovered(w.books, r'.cursor, r'.emitted)
            && w.process.r.emitted <= r'.emitted
  {
    hide *;
    TakeIsNew(w, book, rows);
    TakeIsHonest(w, book, Since(w.process.r.cursor, book));
    TakeKeepsCovered(w, book);
  }

  lemma {:induction false} ServedRowIsThere(book: seq<Row>, since: Option<int>, i: nat) returns (k: nat)
    requires i < |Serve(book, since)|
    ensures k < |book| && book[k] == Serve(book, since)[i]
  {
    if since.None? {
      k := i;
    } else if i < |Serve(book[..|book| - 1], since)| {
      k := ServedRowIsThere(book[..|book| - 1], since, i);
    } else {
      k := |book| - 1;
    }
  }

  lemma SeenAfterFirst(books: map<BookId, seq<Row>>, seen: map<BookId, seq<Row>>, book: BookId, emitted: set<Hash>,
                       emitted': set<Hash>)
    requires SeenRecorded(books, seen, emitted) && emitted <= emitted'
    ensures SeenRecorded(books, seen - {book}, emitted')
    ensures Finals(Rows(books, book)) <= emitted' ==> SeenRecorded(books, seen[book := Rows(books, book)], emitted')
  {
    hide Finals, Rows;
  }

  lemma CompleteReadRecordsAll(w: World, book: BookId)
    requires Inv(w) && w.process.Collecting?
    ensures var r := w.process.r;
            var r' := TakeInto(book, Serve(Rows(w.books, book), Since(r.cursor, book)), r);
            !NeedsAgain(r.cursor, r'.cursor, book) ==> Finals(Rows(w.books, book)) <= r'.emitted
  {
    hide LedgerOk, Covered, TakeInto, Serve, Finals, Distinct, Honest, Hashes, SeenRecorded;
    var r := w.process.r;
    assert LedgerOk(Rows(w.books, book)) && Covered(Rows(w.books, book), r.cursor, book, r.emitted);
    if !NeedsAgain(r.cursor, TakeInto(book, Serve(Rows(w.books, book), Since(r.cursor, book)), r).cursor, book) {
      RecordsWhatTheWholeRecords(Rows(w.books, book), r, book);
    }
  }

  lemma FirstReadKeepsInv(w: World, book: BookId)
    requires Inv(w) && Enabled(w, FirstRead(book))
    ensures Inv(Do(w, FirstRead(book)))
  {
    hide LedgerOk, TakeInto, Serve, Finals, Distinct, Honest, Hashes, SeenRecorded, AllCovered, Rows;
    var r := w.process.r;
    var r' := TakeInto(book, Serve(Rows(w.books, book), Since(r.cursor, book)), r);
    TakeKeepsInv(w, book, Serve(Rows(w.books, book), Since(r.cursor, book)));
    CompleteReadRecordsAll(w, book);
    SeenAfterFirst(w.books, w.process.seen, book, r.emitted, r'.emitted);
  }

  lemma SecondReadKeepsInv(w: World)
    requires Inv(w) && Enabled(w, SecondRead)
    ensures Inv(Do(w, SecondRead))
  {
    var book := w.process.again.value;
    TakeKeepsInv(w, book, Serve(Rows(w.books, book), None));
  }

  lemma OtherStepsKeepInv(w: World, step: Step)
    requires Inv(w) && Enabled(w, step)
    requires !step.Append? && !step.FirstRead? && !step.SecondRead?
    ensures Inv(Do(w, step))
  {
    if step.EmitOne? {
      EmitOneKeepsInv(w);
    } else {
      EmptyCursorCovers(w.books, Hashes(w.log));
      assert w.log + [] == w.log;
      LogPart(w);
    }
  }

  lemma LogPart(w: World)
    requires Inv(w)
    ensures Distinct(w.log) && forall e :: e in w.log ==> Honest(w.books, e)
  {
    var all := w.log + InFlight(w.process);
    assert forall e :: e in w.log ==> e in all;
    assert forall i :: 0 <= i < |w.log| ==> w.log[i] == all[i];
  }

  lemma EmitOneKeepsInv(w: World)
    requires Inv(w) && Enabled(w, EmitOne)
    ensures Inv(Do(w, EmitOne))
  {
    var todo := w.process.todo;
    assert w.log + [todo[0]] + todo[1..] == w.log + todo;
    HashesConcat(w.log, [todo[0]]);
    forall book
      ensures Covered(Rows(w.books, book), Carried(w.cache), book, Hashes(w.log + [todo[0]]))
    {
      CoveredGrows(Rows(w.books, book), Rows(w.books, book), Carried(w.cache), Carried(w.cache), book,
                   Hashes(w.log), Hashes(w.log + [todo[0]]));
    }
  }

  lemma {:induction false} ReachableWorlds(steps: seq<Step>, w: World)
    requires IsRun(steps, w)
    ensures Inv(w)
  {
    if steps == [] {
      EmptyCursorCovers(map[], Hashes(START.log));
      assert START.log + InFlight(START.process) == [];
    } else {
      var step := steps[|steps| - 1];
      var v := After(steps[..|steps| - 1]).value;
      ReachableWorlds(steps[..|steps| - 1], v);
      match step {
        case Append(book, row) => AppendKeepsInv(v, book, row);
        case FirstRead(book) => FirstReadKeepsInv(v, book);
        case SecondRead => SecondReadKeepsInv(v);
        case _ => OtherStepsKeepInv(v, step);
      }
    }
  }

  // --- the main results -----------------------------------------------------------

  // Over every run: no hash is recorded twice, every recorded event is a final
  // receipt its book holds, and the cached cursor never stands past a lens-based
  // final receipt that is not in the log.
  lemma ExactlyOnce(steps: seq<Step>, w: World)
    requires IsRun(steps, w)
    ensures Distinct(w.log)
    ensures forall e :: e in w.log ==> Honest(w.books, e)
    ensures AllCovered(w.books, Carried(w.cache), Hashes(w.log))
  {
    ReachableWorlds(steps, w);
    LogPart(w);
  }

  // When the emissions of a read are done, every final receipt of every book it
  // read completely is in the log, as that book stood when it was read.
  lemma ReadPointComplete(steps: seq<Step>, w: World, book: BookId)
    requires IsRun(steps, w) && w.process.Emitting? && w.process.todo == []
    requires book in w.process.seen
    ensures Finals(w.process.seen[book]) <= Hashes(w.log)
  {
    ReachableWorlds(steps, w);
    assert w.log + [] == w.log;
  }

  // Steps of a pass that reads one book without a failure and is not interrupted.
  function ReadSteps(w: World, book: BookId): seq<Step>
    requires w.process.Idle?
  {
    [Begin, FirstRead(book)] + (if AfterFirst(w.books, Begun(w), book).again.Some? then [SecondRead] else [])
  }

  function Begun(w: World): Process {
    Collecting(Reading(Carried(w.cache), Hashes(w.log), []), None, map[])
  }

  function AfterReads(w: World, book: BookId): Process
    requires w.process.Idle?
  {
    var p := AfterFirst(w.books, Begun(w), book);
    if p.again.Some? then AfterSecond(w.books, p) else p
  }

  function CleanPass(w: World, book: BookId): seq<Step>
    requires w.process.Idle?
  {
    ReadSteps(w, book) + [Finish] + seq(|AfterReads(w, book).r.events|, _ => EmitOne)
  }

  lemma ReadsRun(steps: seq<Step>, w: World, book: BookId)
    requires IsRun(steps, w) && w.process.Idle?
    ensures IsRun(steps + ReadSteps(w, book), w.(process := AfterReads(w, book)))
  {
    hide TakeInto, Serve, LedgerOk, Hashes, After;
    var v := Extend(steps, w, Begin);
    v := Extend(steps + [Begin], v, FirstRead(book));
    assert steps + [Begin] + [FirstRead(book)] == steps + [Begin, FirstRead(book)];
    if v.process.again.Some? {
      v := Extend(steps + [Begin, FirstRead(book)], v, SecondRead);
      assert steps + [Begin, FirstRead(book)] + [SecondRead] == steps + ReadSteps(w, book);
    } else {
      assert steps + [Begin, FirstRead(book)] == steps + ReadSteps(w, book);
    }
  }

  lemma {:induction false} Drain(steps: seq<Step>, w: World) returns (w': World)
    requires IsRun(steps, w) && w.process.Emitting?
    ensures IsRun(steps + seq(|w.process.todo|, _ => EmitOne), w')
    ensures w' == w.(log := w.log + w.process.todo, process := w.process.(todo := []))
    decreases |w.process.todo|
  {
    var todo := w.process.todo;
    if todo == [] {
      w' := w;
      assert steps + seq(0, _ => EmitOne) == steps;
      assert w.log + todo == w.log;
    } else {
      var next := Extend(steps, w, EmitOne);
      w' := Drain(steps + [EmitOne], next);
      assert steps + [EmitOne] + seq(|todo| - 1, _ => EmitOne) == steps + seq(|todo|, _ => EmitOne);
      assert w.log + [todo[0]] + todo[1..] == w.log + todo;
    }
  }

  lemma Extend(steps: seq<Step>, w: World, step: Step) returns (w': World)
    requires IsRun(steps, w) && Enabled(w, step)
    ensures IsRun(steps + [step], w') && w' == Do(w, step)
  {
    w' := Do(w, step);
    assert (steps + [step])[..|steps|] == steps;
  }

  // Nothing is ever lost: whatever crashed, failed or was forgotten before, one
  // clean pass over a book brings every final receipt the book holds into the log.
  lemma NothingIsLost(steps: seq<Step>, w: World, book: BookId) returns (w': World)
    requires IsRun(steps, w) && w.process.Idle?
    ensures IsRun(steps + CleanPass(w, book), w')
    ensures w'.books == w.books && w.log <= w'.log
    ensures Finals(Rows(w.books, book)) <= Hashes(w'.log)
  {
    hide TakeInto, Serve, LedgerOk, Hashes, After;
    ReadsRun(steps, w, book);
    var v := w.(process := AfterReads(w, book));
    var done := steps + ReadSteps(w, book);
    v := Extend(done, v, Finish);
    w' := Drain(done + [Finish], v);
    assert done + [Finish] + seq(|v.process.todo|, _ => EmitOne) == steps + CleanPass(w, book);
    ReadPointComplete(steps + CleanPass(w, book), w', book);
  }

  // A cursor that was saved is where the next read begins, even when the process dies in
  // between, and the hashes in the log are what that read does not report again; after the
  // cache is lost the next read begins with nothing read.
  lemma SavedCursorIsCarried(steps: seq<Step>, w: World) returns (v: World, lost: World)
    requires IsRun(steps, w) && w.process.Emitting? && w.process.todo == []
    ensures IsRun(steps + [Save, Crash, Begin], v) && v.process.Collecting? && v.log == w.log
    ensures v.process.r == Reading(w.process.cursor, Hashes(w.log), [])
    ensures IsRun(steps + [Save, LoseCache, Begin], lost) && lost.process.Collecting? && lost.log == w.log
    ensures lost.process.r == Reading(EMPTY_CURSOR, Hashes(w.log), [])
  {
    hide After, Hashes;
    var saved := Extend(steps, w, Save);
    v := Extend(steps + [Save], saved, Crash);
    v := Extend(steps + [Save] + [Crash], v, Begin);
    lost := Extend(steps + [Save], saved, LoseCache);
    lost := Extend(steps + [Save] + [LoseCache], lost, Begin);
    assert steps + [Save] + [Crash] + [Begin] == steps + [Save, Crash, Begin];
    assert steps + [Save] + [LoseCache] + [Begin] == steps + [Save, LoseCache, Begin];
  }

  // --- the reader is a run of the machine ----------------------------------------------------

  lemma LedgerOkPrefix(rows: seq<Row>, k: nat)
    requires LedgerOk(rows) && k <= |rows|
    ensures LedgerOk(rows[..k])
  {
    forall i, h | 0 <= i < k && IsFinal(rows[..k][i], h) && !HasLens(rows[..k][i])
      ensures Announced(rows[..k][..i], h)
    {
      assert rows[..k][..i] == rows[..i];
      assert rows[..k][i] == rows[i];
    }
  }

  // The keeper appends rows to one book until it holds `more`.
  lemma {:induction false} AppendRows(steps: seq<Step>, w: World, book: BookId, more: seq<Row>)
    returns (steps': seq<Step>, w': World)
    requires IsRun(steps, w) && Rows(w.books, book) <= more && LedgerOk(more)
    ensures IsRun(steps', w') && w' == w.(books := w'.books)
    ensures Rows(w'.books, book) == more
    ensures forall b :: b != book ==> Rows(w'.books, b) == Rows(w.books, b)
    decreases |more| - |Rows(w.books, book)|
  {
    hide LedgerOk, After;
    var rows := Rows(w.books, book);
    if rows == more {
      steps', w' := steps, w;
    } else {
      LedgerOkPrefix(more, |rows| + 1);
      assert more[..|rows| + 1] == rows + [more[|rows|]];
      var next := Extend(steps, w, Append(book, more[|rows|]));
      steps', w' := AppendRows(steps + [Append(book, more[|rows|])], next, book, more);
    }
  }

  // The books stand at `target` for every account of them.
  ghost predicate StandAt(books: map<BookId, seq<Row>>, target: map<BookId, seq<Row>>) {
    forall b :: Rows(books, b) == Rows(target, b)
  }

  ghost predicate MayGrowTo(books: map<BookId, seq<Row>>, target: map<BookId, seq<Row>>) {
    forall b :: Rows(books, b) <= Rows(target, b) && LedgerOk(Rows(target, b))
  }

  lemma {:induction false} GrowBooks(steps: seq<Step>, w: World, target: map<BookId, seq<Row>>, todo: set<BookId>)
    returns (steps': seq<Step>, w': World)
    requires IsRun(steps, w) && MayGrowTo(w.books, target)
    requires forall b :: b !in todo ==> Rows(w.books, b) == Rows(target, b)
    ensures IsRun(steps', w') && w' == w.(books := w'.books) && StandAt(w'.books, target)
    decreases |todo|
  {
    hide LedgerOk, After, Rows;
    if todo == {} {
      steps', w' := steps, w;
    } else {
      var book :| book in todo;
      steps', w' := AppendRows(steps, w, book, Rows(target, book));
      steps', w' := GrowBooks(steps', w', target, todo - {book});
    }
  }

  lemma GrowTo(steps: seq<Step>, w: World, target: map<BookId, seq<Row>>) returns (steps': seq<Step>, w': World)
    requires IsRun(steps, w) && MayGrowTo(w.books, target)
    ensures IsRun(steps', w') && w' == w.(books := w'.books) && StandAt(w'.books, target)
  {
    hide LedgerOk, After;
    steps', w' := GrowBooks(steps, w, target, target.Keys);
  }

  // The books as they stand when the n-th request is answered: they only grow.
  ghost predicate Growing(booksAt: nat -> map<BookId, seq<Row>>) {
    forall m: nat, n: nat :: m <= n ==> MayGrowTo(booksAt(m), booksAt(n))
  }

  // Each answer is what the keeper serves of the books as they stand then.
  ghost predicate Answer(answers: Answers, booksAt: nat -> map<BookId, seq<Row>>) {
    forall n, book, since ::
      answers(n, book, since).Some? ==> answers(n, book, since).value == Serve(Rows(booksAt(n), book), since)
  }

  lemma StandingGrows(books: map<BookId, seq<Row>>, booksAt: nat -> map<BookId, seq<Row>>, m: nat, n: nat)
    requires Growing(booksAt) && m <= n && StandAt(books, booksAt(m))
    ensures MayGrowTo(books, booksAt(n))
  {
    hide LedgerOk, Rows;
    assert MayGrowTo(booksAt(m), booksAt(n));
  }

  // One book, read while the books grow, from its first request `n` on.
  lemma ReadBookIsRun(steps: seq<Step>, w: World, answers: Answers, booksAt: nat -> map<BookId, seq<Row>>, n: nat,
                      book: BookId)
    returns (steps': seq<Step>, w': World)
    requires IsRun(steps, w) && w.process.Collecting? && StandAt(w.books, booksAt(n))
    requires Growing(booksAt) && Answer(answers, booksAt)
    ensures IsRun(steps', w') && w'.process.Collecting?
    ensures w'.process.r == ReadBook(answers, n, book, w.process.r).1
    ensures StandAt(w'.books, booksAt(ReadBook(answers, n, book, w.process.r).0))
    ensures w'.log == w.log && w'.cache == w.cache
  {
    hide TakeInto, Serve, LedgerOk, After, Growing, MayGrowTo, Rows;
    var (n1, r1) := ReadBook(answers, n, book, w.process.r);
    steps', w' := steps, w;
    if answers(n, book, Since(w.process.r.cursor, book)).Some? {
      w' := Extend(steps', w', FirstRead(book));
      steps' := steps' + [FirstRead(book)];
      StandingGrows(w'.books, booksAt, n, n + 1);
      steps', w' := GrowTo(steps', w', booksAt(n + 1));
      if w'.process.again.Some? {
        if answers(n + 1, book, None).Some? {
          w' := Extend(steps', w', SecondRead);
          steps' := steps' + [SecondRead];
        }
        StandingGrows(w'.books, booksAt, n + 1, n + 2);
        steps', w' := GrowTo(steps', w', booksAt(n + 2));
      }
    } else {
      StandingGrows(w'.books, booksAt, n, n + 1);
      steps', w' := GrowTo(steps', w', booksAt(n + 1));
    }
  }

  // What `read_keeper_receipts` computes is a run of the machine: reading the books in
  // turn while any of them grows between any two requests, each answer being what the
  // keeper could have given at that moment, takes the steps above.
  lemma {:induction false} ReadBooksIsRun(steps: seq<Step>, w: World, answers: Answers,
                                          booksAt: nat -> map<BookId, seq<Row>>, n: nat, books: seq<BookId>)
    returns (steps': seq<Step>, w': World)
    requires IsRun(steps, w) && w.process.Collecting? && StandAt(w.books, booksAt(n))
    requires Growing(booksAt) && Answer(answers, booksAt)
    ensures IsRun(steps', w') && w'.process.Collecting?
    ensures w'.process.r == ReadBooks(answers, n, books, w.process.r).1
    ensures StandAt(w'.books, booksAt(ReadBooks(answers, n, books, w.process.r).0))
    ensures w'.log == w.log && w'.cache == w.cache
    decreases |books|
  {
    hide ReadBook, After, Growing, Answer, StandAt;
    if books == [] {
      steps', w' := steps, w;
    } else {
      var n1 := ReadBook(answers, n, books[0], w.process.r).0;
      steps', w' := ReadBookIsRun(steps, w, answers, booksAt, n, books[0]);
      steps', w' := ReadBooksIsRun(steps', w', answers, booksAt, n1, books[1..]);
    }
  }
}
