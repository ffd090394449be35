/** CSV chunking (tools/search.py): groups of whole lines, the first with the header line. */
module Csv {
  import opened Bytes
  import opened Spans

  const CSV_ROWS_PER_CHUNK: nat := 20

  // --- lines ----------------------------------------------------------------------------

  // Where a line may begin, and where it may end.
  predicate IsLineStart(d: Data, i: int) {
    i == 0 || (0 < i <= |d| && d[i - 1] == NEWLINE)
  }

  predicate IsLineEnd(d: Data, i: int) {
    i == |d| || (0 <= i < |d| && d[i] == NEWLINE)
  }

  predicate IsWholeLine(d: Data, l: Span) {
    && l.End() <= |d| && IsLineStart(d, l.offset) && IsLineEnd(d, l.End())
    && forall i :: l.offset <= i < l.End() ==> d[i] != NEWLINE
  }

  // The non-empty lines before `hi`, in order, without their newlines.
  ghost predicate AreLinesTo(d: Data, lines: seq<Span>, hi: nat) {
    && hi <= |d| && Ordered(lines, 0, hi)
    && (forall k :: 0 <= k < |lines| ==> IsWholeLine(d, lines[k]))
    && (forall i :: 0 <= i < hi && d[i] != NEWLINE ==> Covered(lines, i))
  }

  ghost predicate AreLines(d: Data, lines: seq<Span>) {
    AreLinesTo(d, lines, |d|)
  }

  // The first newline at or after `position`, or the end of the file.
  function NextNewline(d: Data, position: nat): nat
    requires position <= |d|
    decreases |d| - position
  {
    if position == |d| || d[position] == NEWLINE then position else NextNewline(d, position + 1)
  }

  lemma {:induction false} NextNewlineIsNext(d: Data, position: nat)
    requires position <= |d|
    ensures position <= NextNewline(d, position) <= |d| && IsLineEnd(d, NextNewline(d, position))
    ensures forall i :: position <= i < NextNewline(d, position) ==> d[i] != NEWLINE
    decreases |d| - position
  {
    if position < |d| && d[position] != NEWLINE {
      NextNewlineIsNext(d, position + 1);
    }
  }

  lemma LineIsAdded(d: Data, lines: seq<Span>, position: nat, end: nat)
    requires AreLinesTo(d, lines, position) && position < end <= |d|
    requires IsLineStart(d, position) && IsLineEnd(d, end) && forall i :: position <= i < end ==> d[i] != NEWLINE
    ensures AreLinesTo(d, lines + [Span(position, end - position)], end)
  {
    hide Ordered, Covered;
    var l := Span(position, end - position);
    OneOrdered(l);
    OrderedConcat(lines, [l], 0, position, end);
    forall i | 0 <= i < end && d[i] != NEWLINE
      ensures Covered(lines + [l], i)
    {
      CoveredConcat(lines, [l], i);
      OneCovered(l, i);
    }
  }

  lemma OneOrdered(l: Span)
    requires l.length > 0
    ensures Ordered([l], l.offset, l.End())
  {
  }

  lemma OneCovered(l: Span, i: int)
    ensures Covered([l], i) <==> l.Has(i)
  {
    assert [l][0] == l;
  }

  lemma NewlineIsPassed(d: Data, lines: seq<Span>, end: nat)
    requires AreLinesTo(d, lines, end) && end < |d| && d[end] == NEWLINE
    ensures AreLinesTo(d, lines, end + 1)
  {
    hide IsWholeLine, Covered;
  }

  method Lines(d: Data) returns (lines: seq<Span>)
    ensures AreLines(d, lines)
  {
    hide AreLinesTo, NextNewline;
    lines := [];
    NoLinesYet(d);
    var position, n := 0, |d|;
    while position < n
      invariant 0 <= position <= n + 1
      invariant position <= n ==> AreLinesTo(d, lines, position) && IsLineStart(d, position)
      invariant position > n ==> AreLinesTo(d, lines, n)
      decreases n - position
    {
      var end := NextNewline(d, position);
      NextNewlineIsNext(d, position);
      if end > position {
        LineIsAdded(d, lines, position, end);
        lines := lines + [Span(position, end - position)];
      }
      if end < n {
        NewlineIsPassed(d, lines, end);
      }
      position := end + 1;
    }
  }

  lemma NoLinesYet(d: Data)
    ensures AreLinesTo(d, [], 0)
  {
  }

  // --- groups ---------------------------------------------------------------------------

  // The line that begins group `g`: the first group has the header and 20 rows.
  function GroupStart(g: nat): nat {
    if g == 0 then 0 else 1 + CSV_ROWS_PER_CHUNK * g
  }

  lemma GroupStartSteps(g: nat)
    ensures GroupStart(0) == 0
    ensures GroupStart(g + 1) == GroupStart(g) + CSV_ROWS_PER_CHUNK + (if g == 0 then 1 else 0)
  {
  }

  // `s` runs from the start of line `i` to the end of line `j - 1`.
  predicate IsLinesSpan(lines: seq<Span>, i: int, j: int, s: Span) {
    0 <= i < j <= |lines| && s.offset == lines[i].offset && s.End() == lines[j - 1].End()
  }

  function GroupEnd(lines: seq<Span>, g: nat): nat {
    if GroupStart(g + 1) < |lines| then GroupStart(g + 1) else |lines|
  }

  // The groups take the lines in turn and leave none.
  ghost predicate AreGroups(lines: seq<Span>, spans: seq<Span>) {
    && (spans == [] <==> lines == [])
    && |lines| <= GroupStart(|spans|)
    && forall g :: 0 <= g < |spans| ==> IsLinesSpan(lines, GroupStart(g), GroupEnd(lines, g), spans[g])
  }

  // Groups that are full, with more lines after them.
  ghost predicate AreFullGroups(lines: seq<Span>, spans: seq<Span>) {
    forall g :: 0 <= g < |spans| ==> IsLinesSpan(lines, GroupStart(g), GroupStart(g + 1), spans[g])
  }

  // The spans of a CSV file: the groups of its lines.
  ghost predicate AreCsvSpans(d: Data, spans: seq<Span>) {
    exists lines :: AreLines(d, lines) && AreGroups(lines, spans)
  }

  method CsvSpans(d: Data) returns (spans: seq<Span>)
    ensures AreCsvSpans(d, spans)
  {
    hide AreLines, GroupStart, AreGroups, AreFullGroups, IsLinesSpan;
    var rows := Lines(d);
    spans := [];
    GroupStartSteps(0);
    NoGroups(rows);
    if rows == [] {
      return;
    }
    var group := [rows[0]];
    for i := 1 to |rows|
      invariant 0 < |group| <= CSV_ROWS_PER_CHUNK + (if spans == [] then 1 else 0)
      invariant GroupStart(|spans|) + |group| == i && group == rows[GroupStart(|spans|)..i]
      invariant AreFullGroups(rows, spans)
    {
      if |group| >= CSV_ROWS_PER_CHUNK + (if spans == [] then 1 else 0) {
        GroupStartSteps(|spans|);
        var s := GroupSpan(d, rows, GroupStart(|spans|), i, group);
        FullGroupIsAdded(rows, spans, s);
        spans := spans + [s];
        group := [];
      }
      group := group + [rows[i]];
    }
    GroupStartSteps(|spans|);
    var s := GroupSpan(d, rows, GroupStart(|spans|), |rows|, group);
    LastGroupIsAdded(rows, spans, s);
    spans := spans + [s];
  }

  method GroupSpan(d: Data, ghost lines: seq<Span>, ghost i: nat, ghost j: nat, group: seq<Span>) returns (s: Span)
    requires AreLines(d, lines) && i < j <= |lines| && group == lines[i..j]
    ensures IsLinesSpan(lines, i, j, s)
  {
    hide IsWholeLine, Covered;
    s := Span(group[0].offset, group[|group| - 1].End() - group[0].offset);
  }

  lemma NoGroups(lines: seq<Span>)
    ensures AreFullGroups(lines, [])
    ensures lines == [] ==> AreGroups(lines, [])
  {
  }

  lemma FullGroupIsAdded(lines: seq<Span>, spans: seq<Span>, s: Span)
    requires AreFullGroups(lines, spans) && IsLinesSpan(lines, GroupStart(|spans|), GroupStart(|spans| + 1), s)
    ensures AreFullGroups(lines, spans + [s])
  {
    hide IsLinesSpan, GroupStart;
  }

  lemma LastGroupIsAdded(lines: seq<Span>, spans: seq<Span>, s: Span)
    requires AreFullGroups(lines, spans) && GroupStart(|spans|) < |lines| <= GroupStart(|spans| + 1)
    requires IsLinesSpan(lines, GroupStart(|spans|), |lines|, s)
    ensures AreGroups(lines, spans + [s])
  {
    hide IsLinesSpan;
    forall g | 0 <= g < |spans + [s]|
      ensures IsLinesSpan(lines, GroupStart(g), GroupEnd(lines, g), (spans + [s])[g])
    {
      assert g < |spans| ==> IsLinesSpan(lines, GroupStart(g), GroupStart(g + 1), spans[g]);
    }
  }

  // --- rows stay whole ------------------------------------------------------------------

  ghost predicate Contains(s: Span, l: Span) {
    s.offset <= l.offset && l.End() <= s.End()
  }

  // The group that line `k` falls into.
  function GroupOf(k: nat): nat {
    if k == 0 then 0 else (k - 1) / CSV_ROWS_PER_CHUNK
  }

  lemma GroupOfLine(k: nat, g: nat)
    ensures GroupStart(g) <= k < GroupStart(g + 1) <==> g == GroupOf(k)
  {
  }

  // Lines and places in the file come in the same order.
  lemma LineInSpan(d: Data, lines: seq<Span>, i: int, j: int, s: Span, k: nat)
    requires AreLines(d, lines) && IsLinesSpan(lines, i, j, s) && k < |lines|
    ensures i <= k < j ==> Contains(s, lines[k])
    ensures !(i <= k < j) ==> lines[k].End() <= s.offset || s.End() <= lines[k].offset
  {
    hide IsWholeLine, Covered;
  }

  lemma GroupsAreOrdered(d: Data, lines: seq<Span>, spans: seq<Span>)
    requires AreLines(d, lines) && AreGroups(lines, spans)
    ensures Ordered(spans, 0, |d|)
  {
    hide IsWholeLine, Covered;
    forall g | 0 <= g < |spans|
      ensures spans[g].length > 0 && spans[g].End() <= |d|
    {
      assert IsLinesSpan(lines, GroupStart(g), GroupEnd(lines, g), spans[g]);
    }
    forall g, h | 0 <= g < h < |spans|
      ensures spans[g].End() <= spans[h].offset
    {
      assert IsLinesSpan(lines, GroupStart(g), GroupEnd(lines, g), spans[g]);
      assert IsLinesSpan(lines, GroupStart(h), GroupEnd(lines, h), spans[h]);
    }
  }

  lemma CsvSpansAreOrdered(d: Data, spans: seq<Span>)
    requires AreCsvSpans(d, spans)
    ensures Ordered(spans, 0, |d|)
  {
    hide AreLines, AreGroups, Ordered;
    var lines :| AreLines(d, lines) && AreGroups(lines, spans);
    GroupsAreOrdered(d, lines, spans);
  }

  // The indices of the non-empty lines that a span holds.
  ghost function LinesIn(lines: seq<Span>, s: Span): set<int> {
    set k | 0 <= k < |lines| && Contains(s, lines[k])
  }

  function Range(i: int, j: int): set<int>
    decreases j - i
  {
    if i < j then Range(i, j - 1) + {j - 1} else {}
  }

  lemma {:induction false} RangeIs(i: int, j: int)
    requires i <= j
    ensures forall k :: k in Range(i, j) <==> i <= k < j
    ensures |Range(i, j)| == j - i
    decreases j - i
  {
    if i < j {
      RangeIs(i, j - 1);
    }
  }

  lemma LinesInSpan(d: Data, lines: seq<Span>, i: nat, j: nat, s: Span)
    requires AreLines(d, lines) && IsLinesSpan(lines, i, j, s)
    ensures LinesIn(lines, s) == Range(i, j) && |Range(i, j)| == j - i
  {
    hide AreLines, IsLinesSpan, Contains, Range;
    WithinLines(lines, i, j, s);
    RangeIs(i, j);
    forall k | 0 <= k < |lines|
      ensures Contains(s, lines[k]) <==> i <= k < j
    {
      LineInSpan(d, lines, i, j, s, k);
      LineIsWhole(d, lines, k);
      if !(i <= k < j) {
        Apart(s, lines[k]);
      }
    }
  }

  lemma WithinLines(lines: seq<Span>, i: nat, j: nat, s: Span)
    requires IsLinesSpan(lines, i, j, s)
    ensures i < j <= |lines|
  {
  }

  lemma Apart(s: Span, l: Span)
    requires l.length > 0 && (l.End() <= s.offset || s.End() <= l.offset)
    ensures !Contains(s, l)
  {
  }

  // A span of a CSV file is whole lines: it begins where a line begins, ends where one
  // ends, and holds its own group of rows and cuts through no other.
  lemma SpansAreWholeLines(d: Data, lines: seq<Span>, spans: seq<Span>, g: nat)
    requires AreLines(d, lines) && AreGroups(lines, spans) && g < |spans|
    ensures spans[g].End() <= |d| && IsLineStart(d, spans[g].offset) && IsLineEnd(d, spans[g].End())
    ensures LinesIn(lines, spans[g]) == Range(GroupStart(g), GroupEnd(lines, g))
    ensures |LinesIn(lines, spans[g])| <= if g == 0 then 21 else 20
    ensures g < |spans| - 1 ==> |LinesIn(lines, spans[g])| == if g == 0 then 21 else 20
  {
    hide AreLines, LinesIn, IsLineStart, IsLineEnd, Range;
    var i, j, s := GroupStart(g), GroupEnd(lines, g), spans[g];
    assert IsLinesSpan(lines, i, j, s);
    LineIsWhole(d, lines, i);
    LineIsWhole(d, lines, j - 1);
    LinesInSpan(d, lines, i, j, s);
    if g < |spans| - 1 {
      assert IsLinesSpan(lines, GroupStart(g + 1), GroupEnd(lines, g + 1), spans[g + 1]);
    }
  }

  lemma LineIsWhole(d: Data, lines: seq<Span>, k: int)
    requires AreLines(d, lines) && 0 <= k < |lines|
    ensures lines[k].length > 0 && lines[k].End() <= |d|
    ensures IsLineStart(d, lines[k].offset) && IsLineEnd(d, lines[k].End())
  {
    hide Covered;
    assert IsWholeLine(d, lines[k]);
  }

  // Every non-empty line lies in exactly one span.
  lemma EveryLineIsInOneSpan(d: Data, lines: seq<Span>, spans: seq<Span>, k: nat)
    requires AreLines(d, lines) && AreGroups(lines, spans) && k < |lines|
    ensures forall g :: 0 <= g < |spans| ==> (Contains(spans[g], lines[k]) <==> g == GroupOf(k))
    ensures GroupOf(k) < |spans|
  {
    hide Covered, IsWholeLine, GroupStart, GroupOf;
    GroupOfLine(k, GroupOf(k));
    GroupsAreMonotone(|spans|, GroupOf(k));
    forall g | 0 <= g < |spans|
      ensures Contains(spans[g], lines[k]) <==> g == GroupOf(k)
    {
      assert IsLinesSpan(lines, GroupStart(g), GroupEnd(lines, g), spans[g]);
      LineInSpan(d, lines, GroupStart(g), GroupEnd(lines, g), spans[g], k);
      LineIsWhole(d, lines, k);
      GroupOfLine(k, g);
    }
  }

  lemma GroupsAreMonotone(g: nat, h: nat)
    ensures g <= h ==> GroupStart(g) <= GroupStart(h)
  {
  }

  // The first span begins at the start of the file, as a header does, exactly when the
  // file does not begin with an empty line.
  lemma FirstSpanStartsTheFile(d: Data, lines: seq<Span>, spans: seq<Span>)
    requires AreLines(d, lines) && AreGroups(lines, spans) && spans != []
    ensures spans[0].offset == 0 <==> d[0] != NEWLINE
  {
    assert IsLinesSpan(lines, GroupStart(0), GroupEnd(lines, 0), spans[0]);
    assert IsWholeLine(d, lines[0]);
    if d[0] != NEWLINE {
      assert Covered(lines, 0);
      var k :| 0 <= k < |lines| && lines[k].Has(0);
    }
  }

  // A newline and then a letter: the first span does not start the file.
  lemma LeadingEmptyLineIsLeftOut(spans: seq<Span>)
    requires AreCsvSpans([NEWLINE, 65], spans)
    ensures spans != [] && spans[0].offset == 1
  {
    var d: Data := [NEWLINE, 65];
    var lines :| AreLines(d, lines) && AreGroups(lines, spans);
    assert Covered(lines, 1);
    FirstSpanStartsTheFile(d, lines, spans);
    SpansAreWholeLines(d, lines, spans, 0);
  }

  // --- the spans of a file are determined -----------------------------------------------

  lemma LineIsIn(d: Data, a: seq<Span>, b: seq<Span>, k: nat)
    requires AreLines(d, a) && AreLines(d, b) && k < |a|
    ensures a[k] in b
  {
    hide Ordered;
    var l := a[k];
    LineIsWhole(d, a, k);
    assert IsWholeLine(d, l);
    assert Covered(b, l.offset);
    var m :| 0 <= m < |b| && b[m].Has(l.offset);
    LineIsWhole(d, b, m);
    assert IsWholeLine(d, b[m]);
    assert b[m] == l;
  }

  // A file has one list of spans.
  lemma CsvSpansAreUnique(d: Data, a: seq<Span>, b: seq<Span>)
    requires AreCsvSpans(d, a) && AreCsvSpans(d, b)
    ensures a == b
  {
    hide AreLines, AreGroups;
    var lines :| AreLines(d, lines) && AreGroups(lines, a);
    var lines' :| AreLines(d, lines') && AreGroups(lines', b);
    LinesAreUnique(d, lines, lines');
    GroupsAreUnique(lines, a, b);
  }

  lemma LinesAreUnique(d: Data, a: seq<Span>, b: seq<Span>)
    requires AreLines(d, a) && AreLines(d, b)
    ensures a == b
  {
    hide Ordered, Covered, IsWholeLine;
    forall s
      ensures s in a <==> s in b
    {
      if s in a {
        var k :| 0 <= k < |a| && a[k] == s;
        LineIsIn(d, a, b, k);
      }
      if s in b {
        var k :| 0 <= k < |b| && b[k] == s;
        LineIsIn(d, b, a, k);
      }
    }
    OrderedByElements(a, b, 0, |d|);
  }

  lemma AsManyGroups(lines: seq<Span>, a: seq<Span>, b: seq<Span>)
    requires AreGroups(lines, a) && AreGroups(lines, b)
    ensures |a| <= |b|
  {
    if |a| > 0 {
      assert IsLinesSpan(lines, GroupStart(|a| - 1), GroupEnd(lines, |a| - 1), a[|a| - 1]);
    }
  }

  lemma GroupsAreUnique(lines: seq<Span>, a: seq<Span>, b: seq<Span>)
    requires AreGroups(lines, a) && AreGroups(lines, b)
    ensures a == b
  {
    AsManyGroups(lines, a, b);
    AsManyGroups(lines, b, a);
    forall g | 0 <= g < |a|
      ensures a[g] == b[g]
    {
      assert IsLinesSpan(lines, GroupStart(g), GroupEnd(lines, g), a[g]);
      assert IsLinesSpan(lines, GroupStart(g), GroupEnd(lines, g), b[g]);
    }
  }
}
