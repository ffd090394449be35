/**
 What an incremental read does not find.  A since-read never returns a row without a lens
 block, so what only such rows say is found by whole reads alone: the exact conditions,
 for any ordered book, and two books that fail them.
 */
module KeeperLimits {
  import opened Options
  import opened Keeper

  // A row with a lens block names the hash, as final or as pending.
  ghost predicate HasLensRow(rows: seq<Row>, h: Hash) {
    exists i :: 0 <= i < |rows| && HasLens(rows[i]) && (IsFinal(rows[i], h) || IsPending(rows[i], h))
  }

  ghost predicate HasLensPending(rows: seq<Row>, h: Hash) {
    exists i :: 0 <= i < |rows| && HasLens(rows[i]) && IsPending(rows[i], h)
  }

  // The read that the cursor calls for, and whether it is complete.
  function FirstTake(rows: seq<Row>, r: Reading, book: BookId): Reading {
    TakeInto(book, Serve(rows, Since(r.cursor, book)), r)
  }

  predicate IsComplete(rows: seq<Row>, r: Reading, book: BookId) {
    !NeedsAgain(r.cursor, FirstTake(rows, r, book).cursor, book)
  }

  lemma {:induction false} ServedFinal(book: seq<Row>, since: int, h: Hash) returns (i: nat)
    requires h in Finals(Serve(book, Some(since)))
    ensures i < |book| && HasLens(book[i]) && IsFinal(book[i], h)
  {
    var n := |book| - 1;
    var before := Serve(book[..n], Some(since));
    if HasLens(book[n]) && since <= book[n].lens.value && h in RowFinals(book[n]) {
      i := n;
    } else {
      assert (before + [book[n]])[..|before|] == before && before + [] == before;
      i := ServedFinal(book[..n], since, h);
    }
  }

  lemma LensRowIsTaken(rows: seq<Row>, r: Reading, book: BookId, i: nat, h: Hash)
    requires Ordered(rows) && LensCovered(rows, r.cursor, book, r.emitted)
    requires i < |rows| && HasLens(rows[i])
    ensures var r' := FirstTake(rows, r, book); Accounted(rows[i], h, r'.emitted, OpenOf(r'.cursor, book))
  {
    hide Ordered, LensCoveredTo, Accounted, TakeInto, Serve;
    var p :| 0 <= p <= |rows| && LensCoveredTo(rows, p, r.cursor, book, r.emitted);
    LensRowTaken(rows, p, r, book, i, h);
  }

  // Every read keeps accounting for the rows with a lens block, of any ordered book.
  lemma TakeLensCovers(rows: seq<Row>, r: Reading, book: BookId)
    requires Ordered(rows) && LensCovered(rows, r.cursor, book, r.emitted)
    ensures var r' := FirstTake(rows, r, book); LensCoveredTo(rows, |rows|, r'.cursor, book, r'.emitted)
  {
    hide Ordered, LensCovered, Accounted, TakeInto, Serve;
    BlockAfterTake(rows, r, book);
    assert rows[..|rows|] == rows;
    forall i, h | 0 <= i < |rows| && HasLens(rows[i])
      ensures var r' := FirstTake(rows, r, book); Accounted(rows[i], h, r'.emitted, OpenOf(r'.cursor, book))
    {
      LensRowIsTaken(rows, r, book, i, h);
    }
  }

  lemma EmittedByTake(rows: seq<Row>, r: Reading, book: BookId)
    ensures FirstTake(rows, r, book).emitted == r.emitted + Finals(Serve(rows, Since(r.cursor, book)))
  {
  }

  // A complete since-read leaves nothing open.
  lemma CompleteLeavesNothingOpen(rows: seq<Row>, r: Reading, book: BookId)
    requires IsComplete(rows, r, book) && Since(r.cursor, book).Some?
    ensures OpenOf(FirstTake(rows, r, book).cursor, book) == {}
  {
    hide TakeInto, Serve;
  }

  // --- final receipts -------------------------------------------------------------------------

  // A complete read records a final receipt of the book exactly when it was recorded
  // before, the read was whole, or some row with a lens block names its hash.
  lemma CompleteReadFindsExactly(rows: seq<Row>, r: Reading, book: BookId, h: Hash)
    requires Ordered(rows) && LensCovered(rows, r.cursor, book, r.emitted) && IsComplete(rows, r, book)
    requires h in Finals(rows)
    ensures h in FirstTake(rows, r, book).emitted
            <==> h in r.emitted || Since(r.cursor, book).None? || HasLensRow(rows, h)
  {
    hide Ordered, LensCovered, TakeInto, FirstTake, IsComplete, Finals, Serve;
    EmittedByTake(rows, r, book);
    var since := Since(r.cursor, book);
    if since.None? {
      WholeIsServed(rows);
    } else {
      CompleteLeavesNothingOpen(rows, r, book);
      if HasLensRow(rows, h) {
        var i :| 0 <= i < |rows| && HasLens(rows[i]) && (IsFinal(rows[i], h) || IsPending(rows[i], h));
        LensRowIsTaken(rows, r, book, i, h);
      }
      if h in Finals(Serve(rows, since)) {
        var i := ServedFinal(rows, since.value, h);
      }
    }
  }

  // --- pending hashes ---------------------------------------------------------------------------

  lemma WholeOpens(rows: seq<Row>, r: Reading, book: BookId, h: Hash)
    requires h in Pendings(rows) && h !in r.emitted + Finals(rows)
    ensures h in OpenOf(TakeInto(book, rows, r).cursor, book)
  {
    hide Pendings, Finals, Highest, NewEvents;
  }

  // A complete read leaves a pending, unrecorded hash of the book open exactly when the
  // read was whole or some row with a lens block has it pending.
  lemma CompleteReadOpensExactly(rows: seq<Row>, r: Reading, book: BookId, h: Hash)
    requires Ordered(rows) && LensCovered(rows, r.cursor, book, r.emitted) && IsComplete(rows, r, book)
    requires h in Pendings(rows) && h !in FirstTake(rows, r, book).emitted
    ensures h in OpenOf(FirstTake(rows, r, book).cursor, book)
            <==> Since(r.cursor, book).None? || HasLensPending(rows, h)
  {
    hide Ordered, LensCovered, IsComplete, Finals, Pendings, Serve;
    if Since(r.cursor, book).None? {
      WholeIsServed(rows);
      WholeOpens(rows, r, book, h);
    } else {
      CompleteLeavesNothingOpen(rows, r, book);
      if HasLensPending(rows, h) {
        var i :| 0 <= i < |rows| && HasLens(rows[i]) && IsPending(rows[i], h);
        LensRowIsTaken(rows, r, book, i, h);
      }
    }
  }

  // --- one book, with its second read -----------------------------------------------------------

  // The book as its last read found it: `before` when one read was enough, else `after`.
  ghost predicate AnswersAre(answers: Answers, n: nat, book: BookId, r: Reading, before: seq<Row>, after: seq<Row>) {
    && answers(n, book, Since(r.cursor, book)) == Some(Serve(before, Since(r.cursor, book)))
    && (!IsComplete(before, r, book) ==> answers(n + 1, book, None) == Some(after))
  }

  lemma ReadBookIs(answers: Answers, n: nat, book: BookId, r: Reading, before: seq<Row>, after: seq<Row>)
    requires AnswersAre(answers, n, book, r, before, after)
    ensures ReadBook(answers, n, book, r)
            == if IsComplete(before, r, book) then (n + 1, FirstTake(before, r, book))
               else (n + 2, TakeInto(book, after, FirstTake(before, r, book)))
  {
    hide TakeInto, Serve;
  }

  lemma ReadBookFindsExactly(answers: Answers, n: nat, book: BookId, r: Reading, before: seq<Row>, after: seq<Row>,
                             h: Hash)
    requires AnswersAre(answers, n, book, r, before, after)
    requires Ordered(before) && LensCovered(before, r.cursor, book, r.emitted)
    ensures var (n', r') := ReadBook(answers, n, book, r);
            var rows := if n' == n + 1 then before else after;
            h in Finals(rows) ==>
              (h in r'.emitted
               <==> h in r.emitted || n' == n + 2 || Since(r.cursor, book).None? || HasLensRow(rows, h))
  {
    hide Ordered, LensCovered, Finals, AnswersAre, IsComplete, FirstTake, ReadBook, TakeInto, HasLensRow;
    ReadBookIs(answers, n, book, r, before, after);
    if IsComplete(before, r, book) {
      if h in Finals(before) {
        CompleteReadFindsExactly(before, r, book, h);
      }
    } else {
      TakeEmits(book, after, FirstTake(before, r, book));
    }
  }

  lemma ReadBookOpensExactly(answers: Answers, n: nat, book: BookId, r: Reading, before: seq<Row>, after: seq<Row>,
                             h: Hash)
    requires AnswersAre(answers, n, book, r, before, after)
    requires Ordered(before) && LensCovered(before, r.cursor, book, r.emitted)
    ensures var (n', r') := ReadBook(answers, n, book, r);
            var rows := if n' == n + 1 then before else after;
            h in Pendings(rows) && h !in r'.emitted ==>
              (h in OpenOf(r'.cursor, book)
               <==> n' == n + 2 || Since(r.cursor, book).None? || HasLensPending(rows, h))
  {
    hide Ordered, LensCovered, Finals, Pendings, AnswersAre, IsComplete, FirstTake, ReadBook, TakeInto, HasLensPending;
    ReadBookIs(answers, n, book, r, before, after);
    var (n', r') := ReadBook(answers, n, book, r);
    if IsComplete(before, r, book) {
      if h in Pendings(before) && h !in r'.emitted {
        CompleteReadOpensExactly(before, r, book, h);
      }
    } else {
      TakeEmits(book, after, FirstTake(before, r, book));
      if h in Pendings(after) && h !in r'.emitted {
        WholeOpens(after, FirstTake(before, r, book), book, h);
      }
    }
  }

  // --- two books that are not read as a whole read would read them --------------------------------

  const RECORDED := TxRow(Some(5), Some(Tx(Some("a"), Receipt, "confirmed", "")))

  // The reading of a book that had only the recorded row.
  const AFTER_FIVE := Reading(Cursor(map["b" := 5], map[]), {"a"}, [])

  lemma OneRow(row: Row, emitted: set<Hash>)
    ensures Finals([row]) == RowFinals(row) && Pendings([row]) == RowPendings(row) && Highest([row]) == RowLens(row)
    ensures RowFinals(row) <= emitted ==> NewEvents("b", [row], emitted) == []
  {
    hide Finals, Pendings, Highest, NewEvents, RowFinals, RowPendings;
    OneMoreRow("b", [row], 0, emitted);
    NothingTaken("b", emitted);
    assert [row][..0] == [] && [row][..1] == [row];
    assert RowFinals(row) <= emitted ==> RowFinals(row) - emitted - {} == {};
  }

  lemma TwoRows(first: Row, last: Row)
    ensures Finals([first, last]) == RowFinals(first) + RowFinals(last)
    ensures Pendings([first, last]) == RowPendings(first) + RowPendings(last)
  {
    hide Finals, Pendings, RowFinals, RowPendings;
    var rows := [first, last];
    OneMoreRow("b", rows, 1, {});
    OneRow(first, {});
    assert rows[..1] == [first] && rows[..2] == rows;
  }

  lemma RecordedSays()
    ensures RowFinals(RECORDED) == {"a"} && RowPendings(RECORDED) == {}
  {
  }

  lemma TakeOfRecorded()
    ensures TakeInto("b", [RECORDED], AFTER_FIVE) == AFTER_FIVE
  {
    hide Finals, Pendings, Highest, NewEvents, RowFinals, RowPendings;
    RecordedSays();
    OneRow(RECORDED, {"a"});
    assert {"a"} + {"a"} == {"a"};
    var c := AFTER_FIVE.cursor;
    assert c.blocks["b" := 5] == c.blocks && c.open - {"b"} == c.open;
  }

  lemma ServedAfterFive(last: Row)
    requires last.TxRow? && last.lens.None?
    ensures Serve([RECORDED, last], Some(5)) == [RECORDED]
  {
    var rows := [RECORDED, last];
    assert rows[..1] == [RECORDED] && [RECORDED][..0] == [];
    assert Serve([RECORDED], Some(5)) == Serve([], Some(5)) + [RECORDED];
  }

  lemma CoveredAfterFive(last: Row)
    requires last.TxRow? && last.lens.None?
    ensures Ordered([RECORDED, last]) && Covered([RECORDED, last], AFTER_FIVE.cursor, "b", AFTER_FIVE.emitted)
  {
    hide Highest, RowFinals, RowPendings;
    var rows := [RECORDED, last];
    OneRow(RECORDED, {});
    assert rows[..1] == [RECORDED];
    assert CoveredTo(rows, 1, AFTER_FIVE.cursor, "b", {"a"});
  }

  // What the since-read of such a book comes to.
  lemma ReadAfterFive(last: Row)
    requires last.TxRow? && last.lens.None?
    ensures FirstTake([RECORDED, last], AFTER_FIVE, "b") == AFTER_FIVE && IsComplete([RECORDED, last], AFTER_FIVE, "b")
  {
    hide TakeInto, Serve;
    ServedAfterFive(last);
    TakeOfRecorded();
  }

  // A broadcast without a lens block, appended after a whole read, is not opened by the
  // since-read, and would be by a whole one; the ledger's promises all hold.
  lemma PendingWithoutLensStaysUnseen()
    ensures var last := TxRow(None, Some(Tx(Some("h"), Broadcast, "", "")));
            var rows := [RECORDED, last];
            var r' := FirstTake(rows, AFTER_FIVE, "b");
            && LedgerOk(rows) && Covered(rows, AFTER_FIVE.cursor, "b", AFTER_FIVE.emitted)
            && IsComplete(rows, AFTER_FIVE, "b")
            && "h" in Pendings(rows) && "h" !in r'.emitted && "h" !in OpenOf(r'.cursor, "b")
            && "h" in OpenOf(TakeInto("b", rows, AFTER_FIVE).cursor, "b")
  {
    hide FirstTake, IsComplete, TakeInto, Covered, Ordered, Serve, Finals, Pendings;
    var last := TxRow(None, Some(Tx(Some("h"), Broadcast, "", "")));
    var rows := [RECORDED, last];
    CoveredAfterFive(last);
    ReadAfterFive(last);
    RecordedSays();
    TwoRows(RECORDED, last);
    assert RowPendings(last) == {"h"} && RowFinals(last) == {};
    WholeOpens(rows, AFTER_FIVE, "b", "h");
  }

  // A final receipt without a lens block that no row announced is missed: the assumption
  // on late receipts is needed.
  lemma UnannouncedReceiptIsMissed()
    ensures var last := TxRow(None, Some(Tx(Some("h"), Receipt, "confirmed", "")));
            var rows := [RECORDED, last];
            && Ordered(rows) && !LateReceiptsAnnounced(rows)
            && Covered(rows, AFTER_FIVE.cursor, "b", AFTER_FIVE.emitted) && IsComplete(rows, AFTER_FIVE, "b")
            && "h" in Finals(rows) && "h" !in FirstTake(rows, AFTER_FIVE, "b").emitted
  {
    hide FirstTake, IsComplete, TakeInto, Covered, Ordered, Serve, Finals, Pendings;
    var last := TxRow(None, Some(Tx(Some("h"), Receipt, "confirmed", "")));
    var rows := [RECORDED, last];
    CoveredAfterFive(last);
    ReadAfterFive(last);
    TwoRows(RECORDED, last);
    assert RowFinals(last) == {"h"};
    assert IsFinal(rows[1], "h") && rows[..1] == [RECORDED];
    assert !Announced(rows[..1], "h");
  }
}
