/**
 The incremental reader of the keeper's ledger (keeper.py).

 A book is a growing sequence of rows.  A read either asks for the whole book or
 for the rows from the highest lens block seen so far; `Take` folds the answer
 into the cursor, the set of recorded hashes and the events to emit.
 */
module Keeper {
  import opened Options

  type BookId = string
  type Hash = string

  const UNCONFIRMED := "unconfirmed"

  datatype Stage = Broadcast | Receipt | OtherStage

  // `hash` is None when the field is absent or not a string; `details` stands for the
  // other values of the row that its event carries.
  datatype Tx = Tx(hash: Option<Hash>, stage: Stage, status: string, details: string)

  // `NotTx` is a row of another kind or of another shape; `tx` is None when the
  // row carries no transaction object, `lens` is None when it has no lens basis.
  datatype Row = NotTx | TxRow(lens: Option<int>, tx: Option<Tx>)

  datatype KeeperTx = KeeperTx(book: BookId, hash: Hash, status: string, details: string)

  // The persisted form of the cursor.
  datatype Cursor = Cursor(blocks: map<BookId, int>, open: map<BookId, set<Hash>>)

  const EMPTY_CURSOR := Cursor(map[], map[])

  // --- what one row says ------------------------------------------------------

  predicate Names(row: Row, h: Hash) {
    row.TxRow? && row.tx.Some? && row.tx.value.hash == Some(h) && h != ""
  }

  predicate IsFinal(row: Row, h: Hash) {
    Names(row, h) && row.tx.value.stage == Receipt && row.tx.value.status != "unconfirmed"
  }

  predicate IsPending(row: Row, h: Hash) {
    && Names(row, h)
    && (row.tx.value.stage == Broadcast || (row.tx.value.stage == Receipt && row.tx.value.status == "unconfirmed"))
  }

  predicate HasLens(row: Row) {
    row.TxRow? && row.lens.Some?
  }

  // --- what a list of rows says -----------------------------------------------

  function RowFinals(row: Row): (s: set<Hash>)
    ensures forall h :: h in s <==> IsFinal(row, h)
  {
    if row.TxRow? && row.tx.Some? && row.tx.value.hash.Some? && IsFinal(row, row.tx.value.hash.value)
    then {row.tx.value.hash.value} else {}
  }

  function RowPendings(row: Row): (s: set<Hash>)
    ensures forall h :: h in s <==> IsPending(row, h)
  {
    if row.TxRow? && row.tx.Some? && row.tx.value.hash.Some? && IsPending(row, row.tx.value.hash.value)
    then {row.tx.value.hash.value} else {}
  }

  function Finals(rows: seq<Row>): set<Hash> {
    if rows == [] then {} else Finals(rows[..|rows| - 1]) + RowFinals(rows[|rows| - 1])
  }

  function Pendings(rows: seq<Row>): set<Hash> {
    if rows == [] then {} else Pendings(rows[..|rows| - 1]) + RowPendings(rows[|rows| - 1])
  }

  function Higher(a: Option<int>, b: Option<int>): Option<int> {
    if a.None? then b else if b.None? then a else if a.value < b.value then b else a
  }

  function RowLens(row: Row): Option<int> {
    if row.TxRow? then row.lens else None
  }

  // The highest lens block among the rows; None when no row has one.
  function Highest(rows: seq<Row>): Option<int> {
    if rows == [] then None else Higher(Highest(rows[..|rows| - 1]), RowLens(rows[|rows| - 1]))
  }

  lemma {:induction false} SaidBy(rows: seq<Row>, i: nat)
    requires i < |rows|
    ensures RowFinals(rows[i]) <= Finals(rows)
    ensures RowPendings(rows[i]) <= Pendings(rows)
    ensures HasLens(rows[i]) ==> Highest(rows).Some? && rows[i].lens.value <= Highest(rows).value
  {
    if i < |rows| - 1 {
      SaidBy(rows[..|rows| - 1], i);
    }
  }

  lemma {:induction false} FinalIsSaid(rows: seq<Row>, h: Hash) returns (i: nat)
    requires h in Finals(rows)
    ensures i < |rows| && IsFinal(rows[i], h)
  {
    if h in RowFinals(rows[|rows| - 1]) {
      i := |rows| - 1;
    } else {
      i := FinalIsSaid(rows[..|rows| - 1], h);
    }
  }

  lemma {:induction false} HighestIsSaid(rows: seq<Row>) returns (i: nat)
    requires Highest(rows).Some?
    ensures i < |rows| && HasLens(rows[i]) && rows[i].lens == Highest(rows)
  {
    if Highest(rows) == RowLens(rows[|rows| - 1]) {
      i := |rows| - 1;
    } else {
      i := HighestIsSaid(rows[..|rows| - 1]);
    }
  }

  function EventOf(book: BookId, tx: Tx): KeeperTx
    requires tx.hash.Some?
  {
    KeeperTx(book, tx.hash.value, tx.status, tx.details)
  }

  // The events a take emits: for each final hash not recorded yet, its first final row.
  function NewEvents(book: BookId, rows: seq<Row>, emitted: set<Hash>): (events: seq<KeeperTx>) {
    if rows == [] then [] else
      var n := |rows| - 1;
      var before := NewEvents(book, rows[..n], emitted);
      if RowFinals(rows[n]) - emitted - Finals(rows[..n]) == {} then before
      else before + [EventOf(book, rows[n].tx.value)]
  }

  function Hashes(events: seq<KeeperTx>): (s: set<Hash>)
    ensures forall h :: h in s <==> exists i :: 0 <= i < |events| && events[i].hash == h
  {
    set i | 0 <= i < |events| :: events[i].hash
  }

  ghost predicate Distinct(events: seq<KeeperTx>) {
    forall i, j :: 0 <= i < j < |events| ==> events[i].hash != events[j].hash
  }

  // The row is a final receipt of the event's hash and gives the event its values.
  predicate Gives(row: Row, e: KeeperTx) {
    IsFinal(row, e.hash) && row.tx.value.status == e.status && row.tx.value.details == e.details
  }

  // The row gives the event its values, and no earlier row is final for its hash.
  predicate FirstFinalAt(rows: seq<Row>, i: nat, e: KeeperTx) {
    i < |rows| && Gives(rows[i], e) && e.hash !in Finals(rows[..i])
  }

  lemma HashesOfAppend(events: seq<KeeperTx>, e: KeeperTx)
    ensures Hashes(events + [e]) == Hashes(events) + {e.hash}
  {
    var all := events + [e];
    assert all[|events|] == e;
    forall h | h in Hashes(events)
      ensures h in Hashes(all)
    {
      var i :| 0 <= i < |events| && events[i].hash == h;
      assert all[i].hash == h;
    }
  }

  // No hash is emitted twice, and exactly the unrecorded final hashes are emitted.
  lemma {:induction false} NewEventsOnce(book: BookId, rows: seq<Row>, emitted: set<Hash>)
    ensures Distinct(NewEvents(book, rows, emitted))
    ensures Hashes(NewEvents(book, rows, emitted)) == Finals(rows) - emitted
  {
    if rows != [] {
      var n := |rows| - 1;
      NewEventsOnce(book, rows[..n], emitted);
      var before := NewEvents(book, rows[..n], emitted);
      if RowFinals(rows[n]) - emitted - Finals(rows[..n]) != {} {
        HashesOfAppend(before, EventOf(book, rows[n].tx.value));
      }
    }
  }

  // Each new event names its book and carries the values of the first final row of its hash.
  lemma {:induction false} NewEventsExact(book: BookId, rows: seq<Row>, emitted: set<Hash>)
    ensures forall e <- NewEvents(book, rows, emitted) :: e.book == book && exists i: nat :: FirstFinalAt(rows, i, e)
  {
    if rows != [] {
      var n := |rows| - 1;
      NewEventsExact(book, rows[..n], emitted);
      forall e <- NewEvents(book, rows, emitted)
        ensures e.book == book && exists i: nat :: FirstFinalAt(rows, i, e)
      {
        if e in NewEvents(book, rows[..n], emitted) {
          var i: nat :| FirstFinalAt(rows[..n], i, e);
          assert rows[..n][..i] == rows[..i];
          assert FirstFinalAt(rows, i, e);
        } else {
          assert FirstFinalAt(rows, n, e);
        }
      }
    }
  }

  // --- the cursor and one take --------------------------------------------------

  datatype Reading = Reading(cursor: Cursor, emitted: set<Hash>, events: seq<KeeperTx>)

  function OpenOf(c: Cursor, book: BookId): set<Hash> {
    if book in c.open then c.open[book] else {}
  }

  function BlockOf(c: Cursor, book: BookId): Option<int> {
    if book in c.blocks then Some(c.blocks[book]) else None
  }

  function WithBook(c: Cursor, book: BookId, block: Option<int>, open: set<Hash>): Cursor {
    Cursor(if block.Some? then c.blocks[book := block.value] else c.blocks,
           if open != {} then c.open[book := open] else c.open - {book})
  }

  // Folding the rows of one answer into the reading, in closed form: a hash is
  // left open exactly when no row is its final receipt and it was open before or
  // has a broadcast (or unconfirmed receipt) among the rows and was never recorded.
  function TakeInto(book: BookId, rows: seq<Row>, r: Reading): Reading {
    Reading(
      WithBook(r.cursor, book, Higher(BlockOf(r.cursor, book), Highest(rows)),
               OpenOf(r.cursor, book) + (Pendings(rows) - r.emitted) - Finals(rows)),
      r.emitted + Finals(rows),
      r.events + NewEvents(book, rows, r.emitted))
  }

  lemma {:induction false} PendingIsSaid(rows: seq<Row>, h: Hash)
    ensures h in Pendings(rows) <==> exists i :: 0 <= i < |rows| && IsPending(rows[i], h)
    ensures h in Finals(rows) <==> exists i :: 0 <= i < |rows| && IsFinal(rows[i], h)
  {
    hide RowPendings, RowFinals, IsPending, IsFinal;
    if rows != [] {
      var n := |rows| - 1;
      PendingIsSaid(rows[..n], h);
      assert forall i :: 0 <= i < n ==> rows[..n][i] == rows[i];
    }
  }

  // After a take a hash of the book is open exactly when no row taken is its final receipt
  // and it was open before, or some row has it pending and it was not recorded; every other
  // book stays as it was.
  lemma TakeOpensExactly(book: BookId, rows: seq<Row>, r: Reading, h: Hash, other: BookId)
    ensures var r' := TakeInto(book, rows, r);
            && (h in OpenOf(r'.cursor, book)
                <==> && (forall i :: 0 <= i < |rows| ==> !IsFinal(rows[i], h))
                     && (h in OpenOf(r.cursor, book)
                         || (h !in r.emitted && exists i :: 0 <= i < |rows| && IsPending(rows[i], h))))
            && (other != book ==> OpenOf(r'.cursor, other) == OpenOf(r.cursor, other)
                                  && BlockOf(r'.cursor, other) == BlockOf(r.cursor, other))
  {
    hide Finals, Pendings, Highest, NewEvents, IsPending, IsFinal;
    PendingIsSaid(rows, h);
  }

  // The lower bound of the next read; None asks for the whole book.
  function Since(c: Cursor, book: BookId): Option<int> {
    if OpenOf(c, book) != {} then None else BlockOf(c, book)
  }

  // A since-read that left the book open is followed by a read of the whole book.
  predicate NeedsAgain(before: Cursor, after: Cursor, book: BookId) {
    Since(before, book).Some? && OpenOf(after, book) != {}
  }

  // --- reading the account's books ------------------------------------------------

  // What the keeper answers to the n-th ledger request; None is a failed read.
  type Answers = (nat, BookId, Option<int>) -> Option<seq<Row>>

  function ReadBook(answers: Answers, n: nat, book: BookId, r: Reading): (nat, Reading) {
    var first := answers(n, book, Since(r.cursor, book));
    if first.None? then (n + 1, r) else
      var r1 := TakeInto(book, first.value, r);
      if !NeedsAgain(r.cursor, r1.cursor, book) then (n + 1, r1) else
        var second := answers(n + 1, book, None);
        (n + 2, if second.None? then r1 else TakeInto(book, second.value, r1))
  }

  function ReadBooks(answers: Answers, n: nat, books: seq<BookId>, r: Reading): (nat, Reading)
    decreases |books|
  {
    if books == [] then (n, r) else
      var (n1, r1) := ReadBook(answers, n, books[0], r);
      ReadBooks(answers, n1, books[1..], r1)
  }

  class LedgerCursor {
    var blocks: map<BookId, int>
    var open: map<BookId, set<Hash>>

    constructor (c: Cursor)
      ensures Value() == c
    {
      blocks, open := c.blocks, c.open;
    }

    function Value(): Cursor
      reads this
    {
      Cursor(blocks, open)
    }

    method Store(book: BookId, highest: Option<int>, stillOpen: set<Hash>)
      modifies this
      ensures Value() == WithBook(old(Value()), book, highest, stillOpen)
    {
      if highest.Some? {
        blocks := blocks[book := highest.value];
      }
      if stillOpen != {} {
        open := open[book := stillOpen];
      } else {
        open := open - {book};
      }
    }
  }

  lemma OneMoreRow(book: BookId, rows: seq<Row>, i: nat, emitted: set<Hash>)
    requires i < |rows|
    ensures Finals(rows[..i + 1]) == Finals(rows[..i]) + RowFinals(rows[i])
    ensures Pendings(rows[..i + 1]) == Pendings(rows[..i]) + RowPendings(rows[i])
    ensures Highest(rows[..i + 1]) == Higher(Highest(rows[..i]), RowLens(rows[i]))
    ensures NewEvents(book, rows[..i + 1], emitted)
            == NewEvents(book, rows[..i], emitted)
               + if RowFinals(rows[i]) - emitted - Finals(rows[..i]) == {} then []
                 else [EventOf(book, rows[i].tx.value)]
  {
    assert rows[..i + 1][..i] == rows[..i];
  }

  lemma NothingTaken(book: BookId, emitted: set<Hash>)
    ensures Finals([]) == Pendings([]) == {} && NewEvents(book, [], emitted) == [] && Highest([]) == None
  {
  }

  // Which of a row's three effects a take applies.
  lemma RowSays(row: Row)
    ensures row.NotTx? || row.tx.None? || row.tx.value.hash.None? || row.tx.value.hash.value == ""
            ==> RowFinals(row) == RowPendings(row) == {}
    ensures row.TxRow? && row.tx.Some? && row.tx.value.hash.Some? && row.tx.value.hash.value != ""
            ==> var (tx, h) := (row.tx.value, row.tx.value.hash.value);
                && RowFinals(row) == (if tx.stage == Receipt && tx.status != UNCONFIRMED then {h} else {})
                && RowPendings(row)
                   == (if tx.stage == Broadcast || (tx.stage == Receipt && tx.status == UNCONFIRMED) then {h} else {})
  {
  }

  method Take(book: BookId, rows: seq<Row>, cursor: LedgerCursor, emitted: set<Hash>)
    returns (events: seq<KeeperTx>, emitted': set<Hash>)
    modifies cursor
    ensures Reading(cursor.Value(), emitted', events)
            == TakeInto(book, rows, Reading(old(cursor.Value()), emitted, []))
  {
    hide Finals, Pendings, NewEvents, Highest, RowFinals, RowPendings, WithBook;
    assert Finals(rows[..0]) == Pendings(rows[..0]) == {} && NewEvents(book, rows[..0], emitted) == []
           && Highest(rows[..0]) == None by {
      NothingTaken(book, emitted);
    }
    events, emitted' := [], emitted;
    ghost var c := cursor.Value();
    var stillOpen := if book in cursor.open then cursor.open[book] else {};
    var highest := if book in cursor.blocks then Some(cursor.blocks[book]) else None;
    for i := 0 to |rows|
      invariant cursor.Value() == c
      invariant emitted' == emitted + Finals(rows[..i])
      invariant events == NewEvents(book, rows[..i], emitted)
      invariant highest == Higher(BlockOf(c, book), Highest(rows[..i]))
      invariant stillOpen == OpenOf(c, book) + (Pendings(rows[..i]) - emitted) - Finals(rows[..i])
    {
      OneMoreRow(book, rows, i, emitted);
      var row := rows[i];
      RowSays(row);
      if !row.TxRow? {
        continue;
      }
      if row.lens.Some? {
        highest := if highest.None? then row.lens
                   else Some(if highest.value < row.lens.value then row.lens.value else highest.value);
      }
      if row.tx.None? || row.tx.value.hash.None? || row.tx.value.hash.value == "" {
        continue;
      }
      var tx := row.tx.value;
      var h := tx.hash.value;
      if tx.stage == Receipt && tx.status != UNCONFIRMED {
        stillOpen := stillOpen - {h};
        if h in emitted' {
          continue;
        }
        emitted' := emitted' + {h};
        events := events + [EventOf(book, tx)];
      } else if (tx.stage == Broadcast || tx.stage == Receipt) && h !in emitted' {
        stillOpen := stillOpen + {h};
      }
    }
    assert rows[..|rows|] == rows;
    cursor.Store(book, highest, stillOpen);
  }

  // `books` is None when the keeper did not answer or refused the books request.
  method ReadKeeperReceipts(answers: Answers, books: Option<seq<BookId>>, cursor: LedgerCursor, emitted: set<Hash>)
    returns (events: seq<KeeperTx>, emitted': set<Hash>)
    modifies cursor
    ensures books.None? ==> events == [] && emitted' == emitted && cursor.Value() == old(cursor.Value())
    ensures books.Some? ==>
              Reading(cursor.Value(), emitted', events)
              == ReadBooks(answers, 0, books.value, Reading(old(cursor.Value()), emitted, [])).1
  {
    events, emitted' := [], emitted;
    if books.None? {
      return;
    }
    ghost var start := Reading(cursor.Value(), emitted, []);
    var n: nat := 0;
    for i := 0 to |books.value|
      invariant ReadBooks(answers, 0, books.value, start)
             == ReadBooks(answers, n, books.value[i..], Reading(cursor.Value(), emitted', events))
    {
      var book := books.value[i];
      assert books.value[i..][1..] == books.value[i + 1..];
      ghost var before := Reading(cursor.Value(), emitted', events);
      var whole := (book in cursor.open && cursor.open[book] != {}) || book !in cursor.blocks;
      var rows := answers(n, book, if whole then None else Some(cursor.blocks[book]));
      n := n + 1;
      if rows.None? {
        continue;
      }
      var found;
      found, emitted' := Take(book, rows.value, cursor, emitted');
      events := events + found;
      ghost var r1 := TakeInto(book, rows.value, before);
      assert [] + NewEvents(book, rows.value, before.emitted) == NewEvents(book, rows.value, before.emitted);
      assert Reading(cursor.Value(), emitted', events) == r1;
      if !whole && book in cursor.open && cursor.open[book] != {} {
        rows := answers(n, book, None);
        n := n + 1;
        if rows.Some? {
          found, emitted' := Take(book, rows.value, cursor, emitted');
          events := events + found;
          assert [] + NewEvents(book, rows.value, r1.emitted) == NewEvents(book, rows.value, r1.emitted);
          assert Reading(cursor.Value(), emitted', events) == TakeInto(book, rows.value, r1);
        }
      }
    }
  }

  // --- the ledger behind the answers ----------------------------------------------

  // Lens blocks do not decrease along a book.
  ghost predicate Ordered(book: seq<Row>) {
    forall i, j :: 0 <= i < j < |book| && HasLens(book[i]) && HasLens(book[j])
                   ==> book[i].lens.value <= book[j].lens.value
  }

  // A final receipt with no lens basis follows a broadcast, or an unconfirmed
  // receipt, of the same hash that has one.
  ghost predicate LateReceiptsAnnounced(book: seq<Row>) {
    forall i, h :: 0 <= i < |book| && IsFinal(book[i], h) && !HasLens(book[i]) ==> Announced(book[..i], h)
  }

  ghost predicate Announced(rows: seq<Row>, h: Hash) {
    exists j :: 0 <= j < |rows| && HasLens(rows[j]) && IsPending(rows[j], h)
  }

  ghost predicate LedgerOk(book: seq<Row>) {
    Ordered(book) && LateReceiptsAnnounced(book)
  }

  // A since-read is inclusive and omits rows without a lens basis.
  function Serve(book: seq<Row>, since: Option<int>): seq<Row> {
    if since.None? || book == [] then book else
      Serve(book[..|book| - 1], since)
      + if HasLens(book[|book| - 1]) && since.value <= book[|book| - 1].lens.value then [book[|book| - 1]] else []
  }

  lemma WholeIsServed(book: seq<Row>)
    ensures Serve(book, None) == book
  {
  }

  lemma {:induction false} Served(book: seq<Row>, since: int, i: nat)
    requires i < |book| && HasLens(book[i]) && since <= book[i].lens.value
    ensures RowFinals(book[i]) <= Finals(Serve(book, Some(since)))
    ensures RowPendings(book[i]) <= Pendings(Serve(book, Some(since)))
  {
    var n := |book| - 1;
    var before := Serve(book[..n], Some(since));
    if i < n {
      Served(book[..n], since, i);
      if Serve(book, Some(since)) != before {
        assert (before + [book[n]])[..|before|] == before;
      }
    } else {
      assert Serve(book, Some(since)) == before + [book[n]];
    }
  }

  // A since-read says nothing the book does not say, and finds the same top block.
  lemma {:induction false} ServesTheBook(book: seq<Row>, since: int)
    ensures var rows := Serve(book, Some(since));
            && Finals(rows) <= Finals(book) && Pendings(rows) <= Pendings(book)
            && Higher(Some(since), Highest(rows)) == Higher(Some(since), Highest(book))
  {
    if book != [] {
      var n := |book| - 1;
      var before := Serve(book[..n], Some(since));
      ServesTheBook(book[..n], since);
      if Serve(book, Some(since)) != before {
        assert (before + [book[n]])[..|before|] == before;
      }
    }
  }

  // A lens-based final receipt is recorded; any other transaction the row
  // mentions is recorded or open.
  ghost predicate Accounted(row: Row, h: Hash, emitted: set<Hash>, open: set<Hash>) {
    && (IsFinal(row, h) && HasLens(row) ==> h in emitted)
    && (IsFinal(row, h) || (HasLens(row) && IsPending(row, h)) ==> h in emitted || h in open)
  }

  // The cursor of a book accounts for the first `p` rows and stands at their
  // highest lens block.
  ghost predicate CoveredTo(rows: seq<Row>, p: nat, c: Cursor, book: BookId, emitted: set<Hash>)
    requires p <= |rows|
  {
    BlockOf(c, book).Some? ==>
      && BlockOf(c, book) == Highest(rows[..p])
      && forall i, h :: 0 <= i < p ==> Accounted(rows[i], h, emitted, OpenOf(c, book))
  }

  ghost predicate Covered(rows: seq<Row>, c: Cursor, book: BookId, emitted: set<Hash>) {
    exists p :: 0 <= p <= |rows| && CoveredTo(rows, p, c, book, emitted)
  }

  // As much of it as holds of any ordered book, whatever receipts come without a lens
  // basis: only the rows with one are accounted for.
  ghost predicate LensCoveredTo(rows: seq<Row>, p: nat, c: Cursor, book: BookId, emitted: set<Hash>)
    requires p <= |rows|
  {
    BlockOf(c, book).Some? ==>
      && BlockOf(c, book) == Highest(rows[..p])
      && forall i, h :: 0 <= i < p && HasLens(rows[i]) ==> Accounted(rows[i], h, emitted, OpenOf(c, book))
  }

  ghost predicate LensCovered(rows: seq<Row>, c: Cursor, book: BookId, emitted: set<Hash>) {
    exists p :: 0 <= p <= |rows| && LensCoveredTo(rows, p, c, book, emitted)
  }

  lemma CoveredIsLensCovered(rows: seq<Row>, c: Cursor, book: BookId, emitted: set<Hash>)
    requires Covered(rows, c, book, emitted)
    ensures LensCovered(rows, c, book, emitted)
  {
    hide Highest, Accounted;
    var p :| 0 <= p <= |rows| && CoveredTo(rows, p, c, book, emitted);
    assert LensCoveredTo(rows, p, c, book, emitted);
  }

  // Appending to a book and recording more hashes keep a book covered.
  lemma CoveredGrows(rows: seq<Row>, more: seq<Row>, c: Cursor, c': Cursor, book: BookId, emitted: set<Hash>,
                     emitted': set<Hash>)
    requires Covered(rows, c, book, emitted) && rows <= more && emitted <= emitted'
    requires BlockOf(c, book) == BlockOf(c', book) && OpenOf(c, book) == OpenOf(c', book)
    ensures Covered(more, c', book, emitted')
  {
    var p :| 0 <= p <= |rows| && CoveredTo(rows, p, c, book, emitted);
    assert more[..p] == rows[..p];
    forall i, h | 0 <= i < p && BlockOf(c, book).Some?
      ensures Accounted(more[i], h, emitted', OpenOf(c', book))
    {
      assert more[i] == rows[i];
      assert Accounted(rows[i], h, emitted, OpenOf(c, book));
    }
    assert CoveredTo(more, p, c', book, emitted');
  }

  lemma BlockIsSaid(rows: seq<Row>, p: nat, since: int) returns (j: nat)
    requires p <= |rows| && Highest(rows[..p]) == Some(since)
    ensures j < p && HasLens(rows[j]) && rows[j].lens == Some(since)
  {
    hide Highest;
    j := HighestIsSaid(rows[..p]);
  }

  lemma LensAfter(rows: seq<Row>, j: nat, p: nat)
    requires Ordered(rows) && j < p <= |rows| && HasLens(rows[j])
    ensures forall i :: p <= i < |rows| && HasLens(rows[i]) ==> rows[j].lens.value <= rows[i].lens.value
  {
  }

  // What the cursor's block says about the prefix it stands for.
  lemma BlockBounds(rows: seq<Row>, p: nat, since: int)
    requires Ordered(rows) && p <= |rows| && Highest(rows[..p]) == Some(since)
    ensures Higher(Some(since), Highest(rows)) == Highest(rows)
    ensures forall i :: p <= i < |rows| && HasLens(rows[i]) ==> since <= rows[i].lens.value
  {
    hide Highest, Ordered, RowFinals, RowPendings, Finals, Pendings;
    var j := BlockIsSaid(rows, p, since);
    LensAfter(rows, j, p);
    SaidBy(rows, j);
  }

  lemma BlockAfterTake(rows: seq<Row>, r: Reading, book: BookId)
    requires Ordered(rows) && LensCovered(rows, r.cursor, book, r.emitted)
    ensures BlockOf(TakeInto(book, Serve(rows, Since(r.cursor, book)), r).cursor, book) == Highest(rows)
  {
    var p :| 0 <= p <= |rows| && LensCoveredTo(rows, p, r.cursor, book, r.emitted);
    var block := BlockOf(r.cursor, book);
    if block.Some? {
      BlockBounds(rows, p, block.value);
      ServesTheBook(rows, block.value);
    }
  }

  lemma LensRowTaken(rows: seq<Row>, p: nat, r: Reading, book: BookId, i: nat, h: Hash)
    requires Ordered(rows) && p <= |rows| && LensCoveredTo(rows, p, r.cursor, book, r.emitted)
    requires i < |rows| && HasLens(rows[i])
    ensures var r' := TakeInto(book, Serve(rows, Since(r.cursor, book)), r);
            Accounted(rows[i], h, r'.emitted, OpenOf(r'.cursor, book))
  {
    hide Finals, Pendings, Highest, Serve;
    var since := Since(r.cursor, book);
    if since.None? {
      SaidBy(rows, i);
      assert Serve(rows, since) == rows by {
        WholeIsServed(rows);
      }
    } else {
      BlockBounds(rows, p, since.value);
      if since.value <= rows[i].lens.value {
        Served(rows, since.value, i);
      } else {
        assert Accounted(rows[i], h, r.emitted, OpenOf(r.cursor, book));
      }
    }
  }

  lemma RowTaken(rows: seq<Row>, r: Reading, book: BookId, i: nat, h: Hash)
    requires LedgerOk(rows) && Covered(rows, r.cursor, book, r.emitted) && i < |rows|
    ensures var r' := TakeInto(book, Serve(rows, Since(r.cursor, book)), r);
            Accounted(rows[i], h, r'.emitted, OpenOf(r'.cursor, book))
  {
    var p :| 0 <= p <= |rows| && CoveredTo(rows, p, r.cursor, book, r.emitted);
    if HasLens(rows[i]) {
      LensRowTaken(rows, p, r, book, i, h);
    } else if IsFinal(rows[i], h) {
      assert Announced(rows[..i], h);
      var j :| 0 <= j < i && HasLens(rows[..i][j]) && IsPending(rows[..i][j], h);
      LensRowTaken(rows, p, r, book, j, h);
    }
  }

  // The read that the cursor calls for accounts for the whole book.
  lemma TakeCovers(rows: seq<Row>, r: Reading, book: BookId)
    requires LedgerOk(rows) && Covered(rows, r.cursor, book, r.emitted)
    ensures var r' := TakeInto(book, Serve(rows, Since(r.cursor, book)), r);
            CoveredTo(rows, |rows|, r'.cursor, book, r'.emitted)
  {
    CoveredIsLensCovered(rows, r.cursor, book, r.emitted);
    BlockAfterTake(rows, r, book);
    assert rows[..|rows|] == rows;
    forall i, h | 0 <= i < |rows|
      ensures var r' := TakeInto(book, Serve(rows, Since(r.cursor, book)), r);
              Accounted(rows[i], h, r'.emitted, OpenOf(r'.cursor, book))
    {
      RowTaken(rows, r, book, i, h);
    }
  }

  // A read is complete when it asked for the whole book or left nothing open.
  // A complete read records exactly what reading the book whole would record, stands at
  // the same block, and leaves open every pending hash that a row with a lens block names.
  lemma CompleteReadIsWholeRead(rows: seq<Row>, r: Reading, book: BookId)
    requires LedgerOk(rows) && Covered(rows, r.cursor, book, r.emitted)
    requires var r' := TakeInto(book, Serve(rows, Since(r.cursor, book)), r); !NeedsAgain(r.cursor, r'.cursor, book)
    ensures var r' := TakeInto(book, Serve(rows, Since(r.cursor, book)), r);
            var whole := TakeInto(book, rows, r);
            && r'.emitted == whole.emitted == r.emitted + Finals(rows)
            && r'.cursor.blocks == whole.cursor.blocks
            && Hashes(r'.events) == Hashes(whole.events)
            && forall i, h :: 0 <= i < |rows| && HasLens(rows[i]) && IsPending(rows[i], h) && h !in r'.emitted
                              ==> h in OpenOf(r'.cursor, book)
  {
    hide TakeInto, Serve, Finals, Hashes, Since, LedgerOk, Covered;
    var served := Serve(rows, Since(r.cursor, book));
    RecordsWhatTheWholeRecords(rows, r, book);
    SameBlocks(rows, r, book);
    HashesOfTake(book, served, r);
    HashesOfTake(book, rows, r);
    forall i, h | 0 <= i < |rows| && HasLens(rows[i]) && IsPending(rows[i], h)
                  && h !in TakeInto(book, served, r).emitted
      ensures h in OpenOf(TakeInto(book, served, r).cursor, book)
    {
      RowTaken(rows, r, book, i, h);
    }
  }

  lemma SameBlocks(rows: seq<Row>, r: Reading, book: BookId)
    requires LedgerOk(rows) && Covered(rows, r.cursor, book, r.emitted)
    ensures TakeInto(book, Serve(rows, Since(r.cursor, book)), r).cursor.blocks == TakeInto(book, rows, r).cursor.blocks
  {
    hide Serve, Finals, Ordered, LateReceiptsAnnounced, Covered, LensCovered, Highest, Since;
    CoveredIsLensCovered(rows, r.cursor, book, r.emitted);
    BlockAfterTake(rows, r, book);
    WholeBlock(rows, r, book);
  }

  lemma WholeBlock(rows: seq<Row>, r: Reading, book: BookId)
    requires LedgerOk(rows) && Covered(rows, r.cursor, book, r.emitted)
    ensures BlockOf(TakeInto(book, rows, r).cursor, book) == Highest(rows)
  {
    if BlockOf(r.cursor, book).Some? {
      var p :| 0 <= p <= |rows| && CoveredTo(rows, p, r.cursor, book, r.emitted);
      BlockBounds(rows, p, r.cursor.blocks[book]);
    }
  }

  lemma RecordsWhatTheWholeRecords(rows: seq<Row>, r: Reading, book: BookId)
    requires LedgerOk(rows) && Covered(rows, r.cursor, book, r.emitted)
    requires var r' := TakeInto(book, Serve(rows, Since(r.cursor, book)), r); !NeedsAgain(r.cursor, r'.cursor, book)
    ensures TakeInto(book, Serve(rows, Since(r.cursor, book)), r).emitted == r.emitted + Finals(rows)
    ensures TakeInto(book, rows, r).emitted == r.emitted + Finals(rows)
    ensures Finals(Serve(rows, Since(r.cursor, book))) - r.emitted == Finals(rows) - r.emitted
  {
    hide Finals, Serve, LedgerOk, Covered, Highest;
    FailedSecondReadLosesNothing(rows, r, book);
    if Since(r.cursor, book).Some? {
      ServesTheBook(rows, Since(r.cursor, book).value);
    } else {
      WholeIsServed(rows);
    }
  }

  lemma HashesOfTake(book: BookId, rows: seq<Row>, r: Reading)
    ensures Hashes(TakeInto(book, rows, r).events) == Hashes(r.events) + (Finals(rows) - r.emitted)
  {
    var found := NewEvents(book, rows, r.emitted);
    NewEventsOnce(book, rows, r.emitted);
    HashesConcat(r.events, found);
  }

  lemma HashesConcat(a: seq<KeeperTx>, b: seq<KeeperTx>)
    ensures Hashes(a + b) == Hashes(a) + Hashes(b)
  {
    forall h | h in Hashes(a) + Hashes(b)
      ensures h in Hashes(a + b)
    {
      if h in Hashes(a) {
        var i :| 0 <= i < |a| && a[i].hash == h;
        assert (a + b)[i].hash == h;
      } else {
        var i :| 0 <= i < |b| && b[i].hash == h;
        assert (a + b)[|a| + i].hash == h;
      }
    }
  }

  // The since-read left the book open and the second read failed: nothing is
  // lost, because whatever the whole book would have added is still open.
  lemma FailedSecondReadLosesNothing(rows: seq<Row>, r: Reading, book: BookId)
    requires LedgerOk(rows) && Covered(rows, r.cursor, book, r.emitted)
    ensures var r' := TakeInto(book, Serve(rows, Since(r.cursor, book)), r);
            && Finals(rows) <= r'.emitted + OpenOf(r'.cursor, book)
            && (NeedsAgain(r.cursor, r'.cursor, book) ==> Since(r'.cursor, book).None?)
  {
    var r' := TakeInto(book, Serve(rows, Since(r.cursor, book)), r);
    if Since(r.cursor, book).Some? {
      forall h | h in Finals(rows)
        ensures h in r'.emitted + OpenOf(r'.cursor, book)
      {
        var i := FinalIsSaid(rows, h);
        RowTaken(rows, r, book, i, h);
      }
    }
  }

  // --- one book, read as the cursor calls for ------------------------------------------------

  lemma WholeAfterSince(before: seq<Row>, after: seq<Row>, r: Reading, book: BookId)
    requires LedgerOk(before) && before <= after && Covered(before, r.cursor, book, r.emitted)
    ensures var r1 := TakeInto(book, Serve(before, Since(r.cursor, book)), r);
            && r1.emitted + Finals(after) == r.emitted + Finals(after)
            && Hashes(TakeInto(book, after, r1).events) == Hashes(TakeInto(book, after, r).events)
            && Covered(after, r1.cursor, book, r1.emitted)
  {
    hide Hashes, TakeInto, Serve, Finals, CoveredTo, LedgerOk;
    var served := Serve(before, Since(r.cursor, book));
    var r1 := TakeInto(book, served, r);
    TakeCovers(before, r, book);
    CoveredGrows(before, after, r1.cursor, r1.cursor, book, r1.emitted, r1.emitted);
    ServedIsSaid(before, Since(r.cursor, book));
    FinalsGrow(before, after);
    TakeEmits(book, served, r);
    HashesOfTake(book, served, r);
    HashesOfTake(book, after, r1);
    HashesOfTake(book, after, r);
  }

  lemma TakeEmits(book: BookId, rows: seq<Row>, r: Reading)
    ensures TakeInto(book, rows, r).emitted == r.emitted + Finals(rows)
  {
  }

  lemma ServedIsSaid(book: seq<Row>, since: Option<int>)
    ensures Finals(Serve(book, since)) <= Finals(book)
  {
    if since.Some? {
      ServesTheBook(book, since.value);
    } else {
      WholeIsServed(book);
    }
  }

  lemma {:induction false} FinalsGrow(before: seq<Row>, after: seq<Row>)
    requires before <= after
    ensures Finals(before) <= Finals(after)
  {
    if before == after {
    } else {
      FinalsGrow(before, after[..|after| - 1]);
    }
  }

  // Reading one book, with the second read when the first one leaves it open, and with
  // the book growing between the two: what is recorded is what a whole read records, of
  // the book as the last read found it, and every pending hash that a row with a lens
  // block names is recorded or open.
  lemma ReadBookIsWholeRead(answers: Answers, n: nat, book: BookId, r: Reading, before: seq<Row>, after: seq<Row>)
    requires LedgerOk(after) && LedgerOk(before) && before <= after && Covered(before, r.cursor, book, r.emitted)
    requires answers(n, book, Since(r.cursor, book)) == Some(Serve(before, Since(r.cursor, book)))
    requires var r1 := TakeInto(book, Serve(before, Since(r.cursor, book)), r);
             NeedsAgain(r.cursor, r1.cursor, book) ==> answers(n + 1, book, None) == Some(after)
    ensures var (n', r') := ReadBook(answers, n, book, r);
            var rows := if n' == n + 1 then before else after;
            var whole := TakeInto(book, rows, r);
            && n + 1 <= n' <= n + 2
            && r'.emitted == whole.emitted == r.emitted + Finals(rows)
            && r'.cursor.blocks == whole.cursor.blocks
            && Hashes(r'.events) == Hashes(whole.events)
            && forall i, h :: 0 <= i < |rows| && HasLens(rows[i]) && IsPending(rows[i], h) && h !in r'.emitted
                              ==> h in OpenOf(r'.cursor, book)
  {
    hide Hashes, TakeInto, Serve, Finals, CoveredTo, LedgerOk, Covered, Since;
    var r1 := TakeInto(book, Serve(before, Since(r.cursor, book)), r);
    if !NeedsAgain(r.cursor, r1.cursor, book) {
      CompleteReadIsWholeRead(before, r, book);
    } else {
      var r2 := TakeInto(book, after, r1);
      WholeAfterSince(before, after, r, book);
      NowWhole(r.cursor, r1.cursor, book);
      WholeIsServed(after);
      CompleteReadIsWholeRead(after, r1, book);
      CoveredGrows(before, after, r.cursor, r.cursor, book, r.emitted, r.emitted);
      TakeEmits(book, after, r1);
      TakeEmits(book, after, r);
      WholeBlock(after, r, book);
      WholeBlock(after, r1, book);
      OtherBlocks(book, Serve(before, Since(r.cursor, book)), after, r);
    }
  }

  // A book left open is asked for whole next time, and that read needs no other.
  lemma NowWhole(before: Cursor, after: Cursor, book: BookId)
    requires NeedsAgain(before, after, book)
    ensures Since(after, book).None? && forall c :: !NeedsAgain(after, c, book)
  {
  }

  // Takes of one book leave the blocks of the others alone.
  lemma OtherBlocks(book: BookId, first: seq<Row>, second: seq<Row>, r: Reading)
    ensures var once, twice := TakeInto(book, second, r), TakeInto(book, second, TakeInto(book, first, r));
            BlockOf(once.cursor, book) == BlockOf(twice.cursor, book) ==> once.cursor.blocks == twice.cursor.blocks
  {
    hide Finals, Pendings, Highest, NewEvents;
  }
}
