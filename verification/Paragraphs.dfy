/**
 Paragraph chunking (tools/search.py): a file is cut at blank lines, neighbouring
 paragraphs are packed together while they fit, and what is still too long is split.
 */
module Paragraphs {
  import opened Options
  import opened Bytes
  import opened Spans

  const CHUNK_MAX_BYTES: nat := 1200
  const CUT_BACKTRACK_BYTES: nat := 200

  const SPACE: Byte := 32

  predicate IsSpace(b: Byte) {
    b == 32 || 9 <= b <= 13
  }

  // What may stand between the two newlines of a blank line.
  predicate IsBlank(b: Byte) {
    b == 32 || b == 9 || b == 13
  }

  // --- blank lines ----------------------------------------------------------------------

  function SkipBlanks(d: Data, k: nat): nat
    requires k <= |d|
    decreases |d| - k
  {
    if k < |d| && IsBlank(d[k]) then SkipBlanks(d, k + 1) else k
  }

  // The blank line that begins with the newline at `i`: where it ends.
  function BreakAt(d: Data, i: nat): Option<nat>
    requires i < |d|
  {
    if d[i] != NEWLINE then None
    else
      var k := SkipBlanks(d, i + 1);
      if k < |d| && d[k] == NEWLINE then Some(k + 1) else None
  }

  // A blank line lies strictly between the bytes at `i` and `j`.
  ghost predicate BreakBetween(d: Data, i: int, j: int) {
    exists b :: 0 <= b < |d| && i < b < j && BreakAt(d, b).Some? && BreakAt(d, b).value <= j
  }

  // The leftmost match of the break pattern at or after `position`.
  function FindBreak(d: Data, position: nat): Option<nat>
    decreases |d| - position
  {
    if position >= |d| then None
    else if BreakAt(d, position).Some? then Some(position)
    else FindBreak(d, position + 1)
  }

  lemma {:induction false} SkipBlanksSkips(d: Data, k: nat)
    requires k <= |d|
    ensures k <= SkipBlanks(d, k) <= |d|
    ensures forall x :: k <= x < SkipBlanks(d, k) ==> IsSpace(d[x])
    decreases |d| - k
  {
    if k < |d| && IsBlank(d[k]) {
      SkipBlanksSkips(d, k + 1);
    }
  }

  lemma BreakIsSpace(d: Data, i: nat)
    requires i < |d| && BreakAt(d, i).Some?
    ensures i + 1 < BreakAt(d, i).value <= |d|
    ensures forall x :: i <= x < BreakAt(d, i).value ==> IsSpace(d[x])
  {
    SkipBlanksSkips(d, i + 1);
  }

  lemma {:induction false} FindBreakFinds(d: Data, position: nat)
    requires position <= |d|
    ensures FindBreak(d, position).Some? ==>
              position <= FindBreak(d, position).value < |d| && BreakAt(d, FindBreak(d, position).value).Some?
    ensures forall x :: position <= x < (if FindBreak(d, position).Some? then FindBreak(d, position).value else |d|) ==>
              BreakAt(d, x).None?
    decreases |d| - position
  {
    if position < |d| && BreakAt(d, position).None? {
      FindBreakFinds(d, position + 1);
    }
  }

  // --- paragraphs -----------------------------------------------------------------------

  predicate IsText(d: Data, i: int) {
    0 <= i < |d| && !IsSpace(d[i])
  }

  ghost predicate BeginAndEndInText(d: Data, ps: seq<Span>) {
    forall k :: 0 <= k < |ps| ==> IsText(d, ps[k].offset) && IsText(d, ps[k].End() - 1)
  }

  // All text before `hi` is in a span.
  ghost predicate TextIsCovered(d: Data, ps: seq<Span>, hi: nat) {
    forall i :: i < hi && IsText(d, i) ==> Covered(ps, i)
  }

  // Two bytes of text before `hi` share a span exactly when no blank line lies between them.
  ghost predicate BreaksSeparate(d: Data, ps: seq<Span>, hi: nat) {
    forall i, j :: i < j < hi && IsText(d, i) && IsText(d, j) ==> (Together(ps, i, j) <==> !BreakBetween(d, i, j))
  }

  // The paragraphs of the file up to `hi`, in order.
  ghost predicate AreParagraphsTo(d: Data, ps: seq<Span>, hi: nat) {
    hi <= |d| && Ordered(ps, 0, hi) && BeginAndEndInText(d, ps) && TextIsCovered(d, ps, hi) && BreaksSeparate(d, ps, hi)
  }

  ghost predicate AreParagraphs(d: Data, ps: seq<Span>) {
    AreParagraphsTo(d, ps, |d|)
  }

  lemma {:induction false} SkipBlanksIs(d: Data, k: nat)
    requires k <= |d|
    ensures k <= SkipBlanks(d, k) <= |d|
    ensures forall x :: k <= x < SkipBlanks(d, k) ==> d[x] == 32 || d[x] == 9 || d[x] == 13
    ensures SkipBlanks(d, k) < |d| ==>
              var x := d[SkipBlanks(d, k)]; x != 32 && x != 9 && x != 13
    decreases |d| - k
  {
    if k < |d| && IsBlank(d[k]) {
      SkipBlanksIs(d, k + 1);
    }
  }

  // Two newlines with nothing between them but spaces, tabs and carriage returns.
  predicate IsBlankLine(d: Data, a: int, b: int) {
    0 <= a < b < |d| && d[a] == 10 && d[b] == 10 && forall x :: a < x < b ==> d[x] == 32 || d[x] == 9 || d[x] == 13
  }

  lemma BreakIsBlankLine(d: Data, i: int, j: int)
    requires j <= |d|
    ensures BreakBetween(d, i, j) <==> exists a, b :: i < a < b < j && IsBlankLine(d, a, b)
  {
    if BreakBetween(d, i, j) {
      var a :| 0 <= a < |d| && i < a < j && BreakAt(d, a).Some? && BreakAt(d, a).value <= j;
      SkipBlanksIs(d, a + 1);
      assert IsBlankLine(d, a, SkipBlanks(d, a + 1));
    }
    if exists a, b :: i < a < b < j && IsBlankLine(d, a, b) {
      var a, b :| i < a < b < j && IsBlankLine(d, a, b);
      SkipBlanksIs(d, a + 1);
      var k := SkipBlanks(d, a + 1);
      assert k == b;
      assert BreakAt(d, a) == Some(b + 1);
    }
  }

  // Of the paragraphs of a file, two bytes that are no white space (9 to 13, and 32) share
  // one exactly when no blank line lies between them.
  lemma BlankLinesSeparate(d: Data, ps: seq<Span>, i: nat, j: nat)
    requires AreParagraphs(d, ps) && i < j < |d|
    requires d[i] != 32 && !(9 <= d[i] <= 13) && d[j] != 32 && !(9 <= d[j] <= 13)
    ensures Covered(ps, i) && Covered(ps, j)
    ensures Together(ps, i, j) <==> !exists a, b :: i < a < b < j && IsBlankLine(d, a, b)
  {
    hide IsBlankLine, BreakBetween, Together, Covered, Ordered, BeginAndEndInText;
    BreakIsBlankLine(d, i, j);
    assert IsText(d, i) && IsText(d, j);
  }

  // And a paragraph begins and ends in such bytes.
  lemma ParagraphsAreTrimmed(d: Data, ps: seq<Span>, k: nat)
    requires AreParagraphs(d, ps) && k < |ps|
    ensures ps[k].length > 0 && ps[k].End() <= |d|
    ensures var first, last := d[ps[k].offset], d[ps[k].End() - 1];
            first != 32 && !(9 <= first <= 13) && last != 32 && !(9 <= last <= 13)
  {
    hide TextIsCovered, BreaksSeparate;
    assert IsText(d, ps[k].offset) && IsText(d, ps[k].End() - 1);
  }

  method Trim(d: Data, start: nat, end: nat) returns (s: nat, e: nat)
    requires start <= end <= |d|
    ensures start <= s <= e <= end
    ensures s < e ==> IsText(d, s) && IsText(d, e - 1)
    ensures forall i :: start <= i < end && !(s <= i < e) ==> !IsText(d, i)
  {
    s, e := start, end;
    while s < e && IsSpace(d[s])
      invariant start <= s <= e == end
      invariant forall i :: start <= i < s ==> !IsText(d, i)
    {
      s := s + 1;
    }
    while e > s && IsSpace(d[e - 1])
      invariant s <= e <= end
      invariant s < e ==> IsText(d, s)
      invariant forall i :: e <= i < end ==> !IsText(d, i)
    {
      e := e - 1;
    }
  }

  // `position` is the end of the last blank line, `m`, or the start of the file.
  predicate FollowsBreak(d: Data, m: int, position: nat) {
    position == 0 || (0 <= m < |d| && BreakAt(d, m) == Some(position))
  }

  // The segment from `position` to `end` has been searched, and no blank line begins in it.
  predicate IsSegment(d: Data, position: nat, end: nat) {
    position <= end <= |d| && forall x :: position <= x < end ==> BreakAt(d, x).None?
  }

  // What one segment adds: its text, trimmed, or nothing.
  predicate IsTrimmed(d: Data, position: nat, end: nat, s: nat, e: nat) {
    && position <= s <= e <= end <= |d|
    && (s < e ==> IsText(d, s) && IsText(d, e - 1))
    && forall i :: position <= i < end && !(s <= i < e) ==> !IsText(d, i)
  }

  function Added(ps: seq<Span>, s: nat, e: nat): seq<Span>
    requires s <= e
  {
    if s < e then ps + [Span(s, e - s)] else ps
  }

  lemma TogetherInAdded(ps: seq<Span>, s: nat, e: nat, i: int, j: int)
    requires s <= e
    ensures Together(Added(ps, s, e), i, j) <==> Together(ps, i, j) || (s <= i < e && s <= j < e)
    ensures Covered(Added(ps, s, e), i) <==> Covered(ps, i) || s <= i < e
  {
    var qs := Added(ps, s, e);
    assert forall k :: 0 <= k < |ps| ==> qs[k] == ps[k];
    assert s < e ==> qs[|ps|] == Span(s, e - s);
  }

  lemma SegmentPairs(d: Data, ps: seq<Span>, m: int, position: nat, end: nat, s: nat, e: nat, i: nat, j: nat)
    requires AreParagraphsTo(d, ps, position) && FollowsBreak(d, m, position)
    requires IsSegment(d, position, end) && IsTrimmed(d, position, end, s, e)
    requires i < j < end && IsText(d, i) && IsText(d, j)
    ensures Together(Added(ps, s, e), i, j) <==> !BreakBetween(d, i, j)
  {
    TogetherInAdded(ps, s, e, i, j);
    if position <= j {
      assert !Together(ps, i, j);
      if i < position {
        BreakIsSpace(d, m);
        assert i < m;
        assert BreakAt(d, m).Some? && BreakAt(d, m).value <= j;
      }
    }
  }

  lemma AddedIsOrdered(d: Data, ps: seq<Span>, position: nat, end: nat, s: nat, e: nat)
    requires position <= s <= e <= end && Ordered(ps, 0, position) && BeginAndEndInText(d, ps)
    requires s < e ==> IsText(d, s) && IsText(d, e - 1)
    ensures Ordered(Added(ps, s, e), 0, end) && BeginAndEndInText(d, Added(ps, s, e))
  {
    hide IsText;
    if s < e {
      var qs := ps + [Span(s, e - s)];
      assert Ordered([Span(s, e - s)], position, end);
      OrderedConcat(ps, [Span(s, e - s)], 0, position, end);
      forall k | 0 <= k < |qs|
        ensures IsText(d, qs[k].offset) && IsText(d, qs[k].End() - 1)
      {
        assert k < |ps| ==> qs[k] == ps[k];
      }
    }
  }

  lemma SegmentIsAdded(d: Data, ps: seq<Span>, m: int, position: nat, end: nat, s: nat, e: nat)
    requires AreParagraphsTo(d, ps, position) && FollowsBreak(d, m, position)
    requires IsSegment(d, position, end) && IsTrimmed(d, position, end, s, e)
    ensures AreParagraphsTo(d, Added(ps, s, e), end)
  {
    hide Added, BreakBetween, Together, Covered, Ordered, BeginAndEndInText, IsText, FollowsBreak;
    var qs := Added(ps, s, e);
    AddedIsOrdered(d, ps, position, end, s, e);
    forall i | i < end && IsText(d, i)
      ensures Covered(qs, i)
    {
      TogetherInAdded(ps, s, e, i, i);
    }
    forall i, j | i < j < end && IsText(d, i) && IsText(d, j)
      ensures Together(qs, i, j) <==> !BreakBetween(d, i, j)
    {
      TextIsIn(d, i);
      SegmentPairs(d, ps, m, position, end, s, e, i, j);
    }
  }

  lemma TextIsIn(d: Data, i: int)
    ensures IsText(d, i) ==> 0 <= i < |d|
  {
  }

  lemma BreakIsPassed(d: Data, ps: seq<Span>, m: nat)
    requires m < |d| && BreakAt(d, m).Some? && AreParagraphsTo(d, ps, m)
    ensures AreParagraphsTo(d, ps, BreakAt(d, m).value)
  {
    BreakIsSpace(d, m);
  }

  method RawParagraphs(d: Data) returns (out: seq<Span>)
    ensures AreParagraphs(d, out)
  {
    hide BreakAt, BreakBetween, FindBreak, AreParagraphsTo, Ordered;
    out := [];
    var position, n := 0, |d|;
    ghost var m := -1;
    NoParagraphsYet(d);
    while position < n
      invariant position <= n && AreParagraphsTo(d, out, position) && FollowsBreak(d, m, position)
      decreases n - position
    {
      var found := FindBreak(d, position);
      FindBreakFinds(d, position);
      var end := if found.Some? then found.value else n;
      var start, stop := Trim(d, position, end);
      SegmentIsAdded(d, out, m, position, end, start, stop);
      if stop > start {
        out := out + [Span(start, stop - start)];
      }
      if found.Some? {
        BreakIsPassed(d, out, end);
        BreakIsSpace(d, end);
        m, position := end, BreakAt(d, end).value;
      } else {
        position := n;
        break;
      }
    }
  }

  lemma NoParagraphsYet(d: Data)
    ensures AreParagraphsTo(d, [], 0)
  {
  }

  // --- the paragraphs of a file are determined -------------------------------------------

  lemma OnlyOneHas(ps: seq<Span>, hi: nat, k: nat, l: nat, i: int)
    requires Ordered(ps, 0, hi) && k < |ps| && l < |ps| && ps[k].Has(i) && ps[l].Has(i)
    ensures k == l
  {
  }

  // Text that shares a paragraph of one list with `x` shares it in the other.
  lemma SharedText(d: Data, ps: seq<Span>, qs: seq<Span>, k: nat, l: nat, x: int, y: int)
    requires AreParagraphs(d, ps) && AreParagraphs(d, qs) && k < |ps| && l < |qs|
    requires IsText(d, x) && IsText(d, y) && ps[k].Has(x) && qs[l].Has(x) && qs[l].Has(y)
    ensures ps[k].Has(y)
  {
    hide Ordered, BreakBetween, BeginAndEndInText, TextIsCovered;
    if x != y {
      var i, j := if x < y then x else y, if x < y then y else x;
      assert Together(qs, i, j);
      assert !BreakBetween(d, i, j);
      assert Together(ps, i, j);
      var m :| 0 <= m < |ps| && ps[m].Has(i) && ps[m].Has(j);
      OnlyOneHas(ps, |d|, k, m, x);
    }
  }

  lemma EndsInText(d: Data, ps: seq<Span>, k: nat)
    requires AreParagraphs(d, ps) && k < |ps|
    ensures ps[k].length > 0 && IsText(d, ps[k].offset) && IsText(d, ps[k].End() - 1)
  {
    hide TextIsCovered, BreaksSeparate, IsText;
  }

  lemma WhoHas(d: Data, ps: seq<Span>, i: int) returns (k: nat)
    requires AreParagraphs(d, ps) && IsText(d, i)
    ensures k < |ps| && ps[k].Has(i)
  {
    hide Ordered, BeginAndEndInText, BreaksSeparate;
    assert Covered(ps, i);
    k :| 0 <= k < |ps| && ps[k].Has(i);
  }

  lemma ParagraphIsIn(d: Data, ps: seq<Span>, qs: seq<Span>, k: nat)
    requires AreParagraphs(d, ps) && AreParagraphs(d, qs) && k < |ps|
    ensures ps[k] in qs
  {
    hide AreParagraphs, IsText;
    var p := ps[k];
    EndsInText(d, ps, k);
    var l := WhoHas(d, qs, p.offset);
    var q := qs[l];
    EndsInText(d, qs, l);
    SharedText(d, ps, qs, k, l, p.offset, q.offset);
    SharedText(d, ps, qs, k, l, p.offset, q.End() - 1);
    SharedText(d, qs, ps, l, k, p.offset, p.End() - 1);
    assert p == q;
  }

  // A file has one list of paragraphs.
  lemma ParagraphsAreUnique(d: Data, ps: seq<Span>, qs: seq<Span>)
    requires AreParagraphs(d, ps) && AreParagraphs(d, qs)
    ensures ps == qs
  {
    hide AreParagraphs, Ordered;
    forall s
      ensures s in ps <==> s in qs
    {
      if s in ps {
        var k :| 0 <= k < |ps| && ps[k] == s;
        ParagraphIsIn(d, ps, qs, k);
      }
      if s in qs {
        var k :| 0 <= k < |qs| && qs[k] == s;
        ParagraphIsIn(d, qs, ps, k);
      }
    }
    InOrder(d, ps);
    InOrder(d, qs);
    OrderedByElements(ps, qs, 0, |d|);
  }

  lemma InOrder(d: Data, ps: seq<Span>)
    requires AreParagraphs(d, ps)
    ensures Ordered(ps, 0, |d|)
  {
  }

  // --- packing --------------------------------------------------------------------------

  // From the start of paragraph `i` to the end of paragraph `j`: one paragraph, or several
  // that fit a chunk.
  ghost predicate IsRun(ps: seq<Span>, n: nat, s: Span) {
    exists i, j :: 0 <= i <= j < n <= |ps| && s.offset == ps[i].offset && s.End() == ps[j].End()
      && (i == j || s.length <= CHUNK_MAX_BYTES)
  }

  ghost predicate Within(spans: seq<Span>, p: Span) {
    exists k :: 0 <= k < |spans| && spans[k].offset <= p.offset && p.End() <= spans[k].End()
  }

  ghost predicate AreRuns(ps: seq<Span>, n: nat, spans: seq<Span>) {
    forall k :: 0 <= k < |spans| ==> IsRun(ps, n, spans[k])
  }

  ghost predicate AllWithin(ps: seq<Span>, n: nat, spans: seq<Span>) {
    forall i :: 0 <= i < n <= |ps| ==> Within(spans, ps[i])
  }

  // A new span begins only with a paragraph that the span before it could not take.
  ghost predicate IsGreedy(ps: seq<Span>, n: nat, spans: seq<Span>) {
    forall k, i :: 0 <= k < |spans| - 1 && 0 <= i < n <= |ps| && ps[i].offset == spans[k + 1].offset ==>
                     ps[i].End() - spans[k].offset > CHUNK_MAX_BYTES
  }

  // The first `n` paragraphs, packed.
  ghost predicate IsPacking(ps: seq<Span>, n: nat, spans: seq<Span>) {
    && n <= |ps|
    && AreRuns(ps, n, spans)
    && AllWithin(ps, n, spans)
    && IsGreedy(ps, n, spans)
  }

  // Where the spans of the first `n` paragraphs end.
  function EndOf(ps: seq<Span>, n: nat): nat
    requires n <= |ps|
  {
    if n == 0 then 0 else ps[n - 1].End()
  }

  ghost predicate IsOpen(ps: seq<Span>, n: nat, spans: seq<Span>, start: nat, end: nat) {
    && 0 < n <= |ps| && start <= end == EndOf(ps, n)
    && Ordered(spans + [Span(start, end - start)], 0, end)
    && IsPacking(ps, n, spans + [Span(start, end - start)])
  }

  lemma RunGrows(ps: seq<Span>, n: nat, s: Span)
    requires IsRun(ps, n, s) && n < |ps|
    ensures IsRun(ps, n + 1, s)
  {
  }

  lemma RunsAdd(ps: seq<Span>, n: nat, spans: seq<Span>, s: Span)
    requires n < |ps| && AreRuns(ps, n, spans) && IsRun(ps, n + 1, s)
    ensures AreRuns(ps, n + 1, spans + [s])
  {
    hide IsRun;
    forall k | 0 <= k < |spans + [s]|
      ensures IsRun(ps, n + 1, (spans + [s])[k])
    {
      if k < |spans| {
        RunGrows(ps, n, spans[k]);
      }
    }
  }

  lemma PackFirst(ps: seq<Span>, hi: nat)
    requires Ordered(ps, 0, hi) && ps != []
    ensures IsOpen(ps, 1, [], ps[0].offset, ps[0].End())
  {
    var spans := [Span(ps[0].offset, ps[0].length)];
    assert [] + spans == spans && spans[0] == ps[0];
    assert IsRun(ps, 1, spans[0]);
    assert Within(spans, ps[0]);
  }

  lemma RunMore(ps: seq<Span>, n: nat, was: Span, grown: Span)
    requires n < |ps| && IsRun(ps, n, was) && grown.offset == was.offset && grown.End() == ps[n].End()
    requires grown.length <= CHUNK_MAX_BYTES
    ensures IsRun(ps, n + 1, grown)
  {
    var i, j :| 0 <= i <= j < n && was.offset == ps[i].offset && was.End() == ps[j].End();
    assert grown.offset == ps[i].offset && grown.End() == ps[n].End();
  }

  lemma RunsPrefix(ps: seq<Span>, n: nat, spans: seq<Span>, s: Span)
    requires AreRuns(ps, n, spans + [s])
    ensures AreRuns(ps, n, spans) && IsRun(ps, n, s)
  {
    hide IsRun;
    assert (spans + [s])[|spans|] == s;
    assert forall k :: 0 <= k < |spans| ==> (spans + [s])[k] == spans[k];
  }

  lemma AllWithinMore(ps: seq<Span>, n: nat, spans: seq<Span>, was: Span, grown: Span)
    requires n < |ps| && AllWithin(ps, n, spans + [was])
    requires grown.offset == was.offset <= ps[n].offset && was.End() <= grown.End() == ps[n].End()
    ensures AllWithin(ps, n + 1, spans + [grown])
  {
    hide Within;
    forall m | 0 <= m < n + 1
      ensures Within(spans + [grown], ps[m])
    {
      if m < n {
        WithinGrown(spans, was, grown, ps[m]);
      } else {
        WithinLast(spans, grown, ps[m]);
      }
    }
  }

  lemma WithinLast(spans: seq<Span>, s: Span, p: Span)
    requires s.offset <= p.offset && p.End() <= s.End()
    ensures Within(spans + [s], p)
  {
    assert (spans + [s])[|spans|] == s;
  }

  lemma OrderedMore(spans: seq<Span>, was: Span, grown: Span)
    requires Ordered(spans + [was], 0, was.End()) && grown.offset == was.offset && was.End() <= grown.End()
    ensures Ordered(spans + [grown], 0, grown.End())
  {
    var before, after := spans + [was], spans + [grown];
    assert before[|spans|] == was && after[|spans|] == grown;
    assert forall k :: 0 <= k < |spans| ==> before[k] == spans[k] == after[k];
  }

  // The next paragraph is taken into the open span.
  lemma PackMore(ps: seq<Span>, hi: nat, n: nat, spans: seq<Span>, start: nat, end: nat)
    requires Ordered(ps, 0, hi) && n < |ps| && IsOpen(ps, n, spans, start, end)
    requires ps[n].End() - start <= CHUNK_MAX_BYTES
    ensures IsOpen(ps, n + 1, spans, start, ps[n].End())
  {
    hide AreRuns, IsRun, AllWithin, IsGreedy, Ordered, Within;
    NextIsAfter(ps, hi, n);
    var was, grown := Span(start, end - start), Span(start, ps[n].End() - start);
    RunsPrefix(ps, n, spans, was);
    RunMore(ps, n, was, grown);
    RunsAdd(ps, n, spans, grown);
    AllWithinMore(ps, n, spans, was, grown);
    OrderedMore(spans, was, grown);
    GreedyMore(ps, hi, n, spans, was, grown);
  }

  lemma NextIsAfter(ps: seq<Span>, hi: nat, n: nat)
    requires Ordered(ps, 0, hi) && n < |ps|
    ensures EndOf(ps, n) <= ps[n].offset < ps[n].End() <= hi
  {
  }

  lemma WithinGrown(spans: seq<Span>, was: Span, grown: Span, p: Span)
    requires Within(spans + [was], p) && grown.offset <= was.offset && was.End() <= grown.End()
    ensures Within(spans + [grown], p)
  {
    var k :| 0 <= k < |spans + [was]| && (spans + [was])[k].offset <= p.offset && p.End() <= (spans + [was])[k].End();
    assert (spans + [grown])[k].offset <= p.offset && p.End() <= (spans + [grown])[k].End();
  }

  lemma WithinMore(spans: seq<Span>, s: Span, p: Span)
    requires Within(spans, p)
    ensures Within(spans + [s], p)
  {
    var k :| 0 <= k < |spans| && spans[k].offset <= p.offset && p.End() <= spans[k].End();
    assert (spans + [s])[k] == spans[k];
  }

  lemma GreedyMore(ps: seq<Span>, hi: nat, n: nat, spans: seq<Span>, was: Span, grown: Span)
    requires Ordered(ps, 0, hi) && n < |ps| && grown.offset == was.offset
    requires Ordered(spans + [was], 0, EndOf(ps, n)) && n > 0 && IsGreedy(ps, n, spans + [was])
    ensures IsGreedy(ps, n + 1, spans + [grown])
  {
    var before, after := spans + [was], spans + [grown];
    forall k, i | 0 <= k < |after| - 1 && 0 <= i < n + 1 && ps[i].offset == after[k + 1].offset
      ensures ps[i].End() - after[k].offset > CHUNK_MAX_BYTES
    {
      assert before[k].offset == after[k].offset && before[k + 1].offset == after[k + 1].offset;
      assert before[k + 1].offset < EndOf(ps, n) <= ps[n].offset;
    }
  }

  lemma AllWithinNext(ps: seq<Span>, n: nat, before: seq<Span>)
    requires n < |ps| && AllWithin(ps, n, before)
    ensures AllWithin(ps, n + 1, before + [ps[n]])
  {
    hide Within;
    forall m | 0 <= m < n + 1
      ensures Within(before + [ps[n]], ps[m])
    {
      if m < n {
        WithinMore(before, ps[n], ps[m]);
      } else {
        WithinLast(before, ps[n], ps[n]);
      }
    }
  }

  lemma OneParagraphIsRun(ps: seq<Span>, n: nat)
    requires n < |ps|
    ensures IsRun(ps, n + 1, ps[n])
  {
  }

  lemma OneIsOrdered(p: Span, lo: nat)
    requires lo <= p.offset && p.length > 0
    ensures Ordered([p], lo, p.End())
  {
  }

  // The next paragraph does not fit: it opens a span of its own.
  lemma PackNext(ps: seq<Span>, hi: nat, n: nat, spans: seq<Span>, start: nat, end: nat)
    requires Ordered(ps, 0, hi) && n < |ps| && IsOpen(ps, n, spans, start, end)
    requires ps[n].End() - start > CHUNK_MAX_BYTES
    ensures IsOpen(ps, n + 1, spans + [Span(start, end - start)], ps[n].offset, ps[n].End())
  {
    hide AreRuns, IsRun, AllWithin, IsGreedy, Ordered, Within;
    NextIsAfter(ps, hi, n);
    var before := spans + [Span(start, end - start)];
    var p := ps[n];
    assert p == Span(p.offset, p.End() - p.offset);
    OneParagraphIsRun(ps, n);
    RunsAdd(ps, n, before, p);
    AllWithinNext(ps, n, before);
    OneIsOrdered(p, end);
    OrderedConcat(before, [p], 0, end, p.End());
    GreedyNext(ps, hi, n, before, p);
  }

  lemma GreedyNext(ps: seq<Span>, hi: nat, n: nat, before: seq<Span>, p: Span)
    requires Ordered(ps, 0, hi) && 0 < n < |ps| && p == ps[n] && before != []
    requires Ordered(before, 0, EndOf(ps, n)) && IsGreedy(ps, n, before)
    requires ps[n].End() - before[|before| - 1].offset > CHUNK_MAX_BYTES
    ensures IsGreedy(ps, n + 1, before + [p])
  {
    var after := before + [p];
    forall k, i | 0 <= k < |after| - 1 && 0 <= i < n + 1 && ps[i].offset == after[k + 1].offset
      ensures ps[i].End() - after[k].offset > CHUNK_MAX_BYTES
    {
      assert after[k] == before[k];
      if k + 1 < |before| {
        assert after[k + 1] == before[k + 1];
        assert before[k + 1].offset < EndOf(ps, n) <= ps[n].offset;
      } else {
        assert after[k + 1] == ps[n];
        assert i == n;
      }
    }
  }

  // --- packing is determined ------------------------------------------------------------

  lemma WhoseStart(ps: seq<Span>, hi: nat, i: nat, j: nat)
    requires Ordered(ps, 0, hi) && i < |ps| && j < |ps|
    ensures ps[i].offset == ps[j].offset || ps[i].End() == ps[j].End() ==> i == j
    ensures i < j ==> ps[i].End() <= ps[j].offset < ps[j].End()
  {
  }

  // The span that holds the paragraph after a span's last one begins with it.
  lemma NextSpanBegins(ps: seq<Span>, hi: nat, spans: seq<Span>, k: nat, j: nat)
    requires Ordered(ps, 0, hi) && Ordered(spans, 0, hi) && IsPacking(ps, |ps|, spans)
    requires k < |spans| && j + 1 < |ps| && spans[k].End() == ps[j].End()
    ensures k + 1 < |spans| && spans[k + 1].offset == ps[j + 1].offset
  {
    hide Ordered, IsGreedy, Within;
    assert Within(spans, ps[j + 1]);
    var m := WithinWhich(spans, ps[j + 1]);
    WhoseStart(ps, hi, j, j + 1);
    SpanBefore(spans, hi, k, m);
    assert IsRun(ps, |ps|, spans[k + 1]);
    var i, l :| 0 <= i <= l < |ps| && spans[k + 1].offset == ps[i].offset && spans[k + 1].End() == ps[l].End();
    SpanBefore(spans, hi, k + 1, m);
    Neighbours(ps, hi, i, j);
  }

  lemma Neighbours(ps: seq<Span>, hi: nat, i: nat, j: nat)
    requires Ordered(ps, 0, hi) && j + 1 < |ps| && i < |ps|
    requires ps[j].End() <= ps[i].offset <= ps[j + 1].offset
    ensures i == j + 1
  {
    WhoseStart(ps, hi, i, j);
    WhoseStart(ps, hi, j + 1, i);
    SpanBefore(ps, hi, j, j);
  }

  lemma WithinWhich(spans: seq<Span>, p: Span) returns (k: nat)
    requires Within(spans, p)
    ensures k < |spans| && spans[k].offset <= p.offset && p.End() <= spans[k].End()
  {
    k :| 0 <= k < |spans| && spans[k].offset <= p.offset && p.End() <= spans[k].End();
  }

  lemma SpanBefore(spans: seq<Span>, hi: nat, k: nat, m: nat)
    requires Ordered(spans, 0, hi) && k < |spans| && m < |spans|
    ensures m <= k ==> spans[m].End() <= spans[k].End() && spans[m].offset <= spans[k].offset
    ensures m < k ==> spans[m].End() <= spans[k].offset
    ensures k < m ==> k + 1 < |spans| && spans[k].End() <= spans[k + 1].offset <= spans[m].offset
    ensures spans[m].length > 0
  {
  }

  lemma RunIs(ps: seq<Span>, s: Span) returns (i: nat, j: nat)
    requires IsRun(ps, |ps|, s)
    ensures i <= j < |ps| && s.offset == ps[i].offset && s.End() == ps[j].End()
    ensures i == j || s.length <= CHUNK_MAX_BYTES
  {
    i, j :| i <= j < |ps| && s.offset == ps[i].offset && s.End() == ps[j].End()
      && (i == j || s.length <= CHUNK_MAX_BYTES);
  }

  lemma FirstStart(ps: seq<Span>, hi: nat, spans: seq<Span>)
    requires Ordered(ps, 0, hi) && Ordered(spans, 0, hi) && IsPacking(ps, |ps|, spans)
    ensures ps != [] <==> spans != []
    ensures ps != [] ==> spans[0].offset == ps[0].offset
  {
    hide Ordered, IsGreedy, IsRun, Within;
    if spans != [] {
      assert IsRun(ps, |ps|, spans[0]);
      var i, j := RunIs(ps, spans[0]);
      assert Within(spans, ps[0]);
      var m := WithinWhich(spans, ps[0]);
      SpanBefore(spans, hi, m, 0);
      SpanBefore(spans, hi, 0, m);
      WhoseStart(ps, hi, 0, i);
      SpanBefore(ps, hi, 0, 0);
    } else if ps != [] {
      assert Within(spans, ps[0]);
      var m := WithinWhich(spans, ps[0]);
    }
  }

  // Of two packings, neither can end a span sooner than the other.
  lemma NoSoonerEnd(ps: seq<Span>, hi: nat, a: seq<Span>, b: seq<Span>, k: nat)
    requires Ordered(ps, 0, hi) && Ordered(a, 0, hi) && Ordered(b, 0, hi)
    requires IsPacking(ps, |ps|, a) && IsPacking(ps, |ps|, b)
    requires k < |a| && k < |b| && a[k].offset == b[k].offset
    ensures b[k].End() <= a[k].End()
  {
    hide Ordered, AllWithin, IsRun;
    assert IsRun(ps, |ps|, a[k]) && IsRun(ps, |ps|, b[k]);
    var i, j := RunIs(ps, a[k]);
    var i', j' := RunIs(ps, b[k]);
    WhoseStart(ps, hi, i, i');
    WhoseStart(ps, hi, j', j);
    if j < j' {
      NextSpanBegins(ps, hi, a, k, j);
      WhoseStart(ps, hi, j + 1, j');
    }
  }

  lemma {:induction false} PackedAlike(ps: seq<Span>, hi: nat, a: seq<Span>, b: seq<Span>, k: nat)
    requires Ordered(ps, 0, hi) && Ordered(a, 0, hi) && Ordered(b, 0, hi)
    requires IsPacking(ps, |ps|, a) && IsPacking(ps, |ps|, b) && k <= |a|
    ensures k <= |b| && a[..k] == b[..k]
  {
    hide Ordered, AllWithin, IsRun, IsGreedy;
    if k > 0 {
      PackedAlike(ps, hi, a, b, k - 1);
      FirstStart(ps, hi, a);
      FirstStart(ps, hi, b);
      if k > 1 {
        assert a[k - 2] == a[..k - 1][k - 2] == b[..k - 1][k - 2] == b[k - 2];
        assert IsRun(ps, |ps|, a[k - 2]) && IsRun(ps, |ps|, a[k - 1]);
        var i, j := RunIs(ps, a[k - 2]);
        var i', j' := RunIs(ps, a[k - 1]);
        SpanBefore(a, hi, k - 2, k - 1);
        SpanBefore(ps, hi, j, j);
        WhoseStart(ps, hi, i', j);
        NextSpanBegins(ps, hi, a, k - 2, j);
        NextSpanBegins(ps, hi, b, k - 2, j);
      }
      NoSoonerEnd(ps, hi, a, b, k - 1);
      NoSoonerEnd(ps, hi, b, a, k - 1);
      assert a[k - 1] == b[k - 1];
      assert a[..k] == a[..k - 1] + [a[k - 1]];
      assert b[..k] == b[..k - 1] + [b[k - 1]];
    }
  }

  // Paragraphs have one packing: each span takes all that fits.
  lemma PackingIsUnique(ps: seq<Span>, hi: nat, a: seq<Span>, b: seq<Span>)
    requires Ordered(ps, 0, hi) && Ordered(a, 0, hi) && Ordered(b, 0, hi)
    requires IsPacking(ps, |ps|, a) && IsPacking(ps, |ps|, b)
    ensures a == b
  {
    hide Ordered, IsPacking;
    PackedAlike(ps, hi, a, b, |a|);
    PackedAlike(ps, hi, b, a, |b|);
    assert a == a[..|a|] && b == b[..|b|];
  }

  // --- splitting what is too long -------------------------------------------------------

  predicate IsCutByte(b: Byte) {
    b == 32 || b == 10
  }

  // The last index of a byte, or -1.
  function LastIndexOf(w: Data, b: Byte): int {
    if w == [] then -1 else if w[|w| - 1] == b then |w| - 1 else LastIndexOf(w[..|w| - 1], b)
  }

  // Where to cut a span that begins at `offset` and is too long.
  function Cut(d: Data, offset: nat): nat
    requires offset + CHUNK_MAX_BYTES <= |d|
  {
    var limit := offset + CHUNK_MAX_BYTES;
    var window := d[limit - CUT_BACKTRACK_BYTES..limit];
    var space, newline := LastIndexOf(window, SPACE), LastIndexOf(window, NEWLINE);
    var index := if space > newline then space else newline;
    if index < 0 then CHUNK_MAX_BYTES else CHUNK_MAX_BYTES - CUT_BACKTRACK_BYTES + index + 1
  }

  lemma {:induction false} LastIndexIsLast(w: Data, b: Byte)
    ensures -1 <= LastIndexOf(w, b) < |w|
    ensures LastIndexOf(w, b) >= 0 ==> w[LastIndexOf(w, b)] == b
    ensures forall x :: LastIndexOf(w, b) < x < |w| ==> w[x] != b
  {
    if w != [] && w[|w| - 1] != b {
      LastIndexIsLast(w[..|w| - 1], b);
    }
  }

  // A cut takes from 1001 to 1200 bytes, and takes the most that ends with a space or a
  // newline within the last 200 of them; only when there is none does it cut blindly.
  lemma CutIsAtTheLastSpace(d: Data, offset: nat)
    requires offset + CHUNK_MAX_BYTES <= |d|
    ensures 1001 <= Cut(d, offset) <= 1200
    ensures forall x :: offset + Cut(d, offset) <= x < offset + 1200 ==> !IsCutByte(d[x])
    ensures Cut(d, offset) == 1200 || IsCutByte(d[offset + Cut(d, offset) - 1])
    ensures (exists x :: offset + 1000 <= x < offset + 1200 && IsCutByte(d[x])) ==>
              IsCutByte(d[offset + Cut(d, offset) - 1])
  {
    hide LastIndexOf;
    var limit := offset + CHUNK_MAX_BYTES;
    var window := d[limit - CUT_BACKTRACK_BYTES..limit];
    LastIndexIsLast(window, SPACE);
    LastIndexIsLast(window, NEWLINE);
    assert forall x :: offset + 1000 <= x < offset + 1200 ==> d[x] == window[x - (offset + 1000)];
  }

  // The pieces of one span.
  function Pieces(d: Data, offset: nat, length: nat): seq<Span>
    requires offset + length <= |d|
    decreases length
  {
    if length > CHUNK_MAX_BYTES then
      CutIsAtTheLastSpace(d, offset);
      var cut := Cut(d, offset);
      [Span(offset, cut)] + Pieces(d, offset + cut, length - cut)
    else if length > 0 then [Span(offset, length)]
    else []
  }

  function AllPieces(d: Data, spans: seq<Span>): seq<Span>
    requires forall k :: 0 <= k < |spans| ==> spans[k].End() <= |d|
  {
    if spans == [] then []
    else
      var s := spans[|spans| - 1];
      assert s.End() <= |d|;
      AllPieces(d, spans[..|spans| - 1]) + Pieces(d, s.offset, s.length)
  }

  method SplitOversized(d: Data, spans: seq<Span>) returns (out: seq<Span>)
    requires forall k :: 0 <= k < |spans| ==> spans[k].End() <= |d|
    ensures out == AllPieces(d, spans)
  {
    hide Cut;
    out := [];
    for k := 0 to |spans|
      invariant out == AllPieces(d, spans[..k])
    {
      assert spans[..k + 1][..k] == spans[..k];
      ghost var before := out;
      var offset: nat, length: nat := spans[k].offset, spans[k].length;
      assert spans[k].End() <= |d|;
      while length > CHUNK_MAX_BYTES
        invariant offset + length <= |d|
        invariant out + Pieces(d, offset, length) == before + Pieces(d, spans[k].offset, spans[k].length)
        decreases length
      {
        CutIsAtTheLastSpace(d, offset);
        var cut := Cut(d, offset);
        assert out + ([Span(offset, cut)] + Pieces(d, offset + cut, length - cut))
            == out + [Span(offset, cut)] + Pieces(d, offset + cut, length - cut);
        out := out + [Span(offset, cut)];
        offset, length := offset + cut, length - cut;
      }
      if length > 0 {
        out := out + [Span(offset, length)];
      }
    }
    assert spans[..|spans|] == spans;
  }

  // --- every chunk ----------------------------------------------------------------------

  ghost predicate AllFit(spans: seq<Span>) {
    forall k :: 0 <= k < |spans| ==> spans[k].length <= CHUNK_MAX_BYTES
  }

  // A bounded cover: chunks in order and apart, none longer than the limit, and all text
  // in one of them.
  ghost predicate IsChunking(d: Data, spans: seq<Span>) {
    Ordered(spans, 0, |d|) && AllFit(spans) && TextIsCovered(d, spans, |d|)
  }

  ghost predicate CoversSpan(spans: seq<Span>, offset: nat, length: nat) {
    forall i :: offset <= i < offset + length ==> Covered(spans, i)
  }

  ghost predicate Tiles(spans: seq<Span>, offset: nat, length: nat) {
    Ordered(spans, offset, offset + length) && AllFit(spans) && CoversSpan(spans, offset, length)
  }

  lemma OneTiles(s: Span)
    requires 0 < s.length <= CHUNK_MAX_BYTES
    ensures Tiles([s], s.offset, s.length)
  {
    hide Covered;
    OneIsOrdered(s, s.offset);
    forall i | s.offset <= i < s.End()
      ensures Covered([s], i)
    {
      OneCovers(s, i);
    }
  }

  lemma TilesJoin(a: seq<Span>, b: seq<Span>, offset: nat, cut: nat, length: nat)
    requires cut <= length && Tiles(a, offset, cut) && Tiles(b, offset + cut, length - cut)
    ensures Tiles(a + b, offset, length)
  {
    hide Covered, Ordered;
    OrderedConcat(a, b, offset, offset + cut, offset + length);
    forall i | offset <= i < offset + length
      ensures Covered(a + b, i)
    {
      CoveredConcat(a, b, i);
    }
  }

  // The pieces of a span cover just that span, in order.
  lemma {:induction false} PiecesTile(d: Data, offset: nat, length: nat)
    requires offset + length <= |d|
    ensures Tiles(Pieces(d, offset, length), offset, length)
    decreases length
  {
    if length > CHUNK_MAX_BYTES {
      hide Cut, Tiles;
      CutIsAtTheLastSpace(d, offset);
      var cut := Cut(d, offset);
      PiecesTile(d, offset + cut, length - cut);
      OneTiles(Span(offset, cut));
      TilesJoin([Span(offset, cut)], Pieces(d, offset + cut, length - cut), offset, cut, length);
    } else if length > 0 {
      OneTiles(Span(offset, length));
    }
  }

  lemma OneCovers(s: Span, i: int)
    ensures s.Has(i) ==> Covered([s], i)
  {
    assert [s][0] == s;
  }

  lemma {:induction false} AllPiecesTile(d: Data, spans: seq<Span>, hi: nat)
    requires Ordered(spans, 0, hi) && hi <= |d|
    ensures Ordered(AllPieces(d, spans), 0, hi) && AllFit(AllPieces(d, spans))
    ensures forall i :: Covered(spans, i) ==> Covered(AllPieces(d, spans), i)
  {
    if spans != [] {
      var n := |spans| - 1;
      var s := spans[n];
      assert spans == spans[..n] + [s];
      AllPiecesTile(d, spans[..n], s.offset);
      PiecesTile(d, s.offset, s.length);
      PiecesAfter(d, AllPieces(d, spans[..n]), Pieces(d, s.offset, s.length), spans[..n], s, hi);
    }
  }

  lemma PiecesAfter(d: Data, a: seq<Span>, b: seq<Span>, spans: seq<Span>, s: Span, hi: nat)
    requires Ordered(a, 0, s.offset) && AllFit(a) && forall i :: Covered(spans, i) ==> Covered(a, i)
    requires Ordered(b, s.offset, s.End()) && AllFit(b) && CoversSpan(b, s.offset, s.length) && s.End() <= hi
    ensures Ordered(a + b, 0, hi) && AllFit(a + b)
    ensures forall i :: Covered(spans + [s], i) ==> Covered(a + b, i)
  {
    hide Covered;
    OrderedConcat(a, b, 0, s.offset, s.End());
    forall i | Covered(spans + [s], i)
      ensures Covered(a + b, i)
    {
      CoveredConcat(spans, [s], i);
      CoveredByOne(s, i);
      CoveredConcat(a, b, i);
    }
  }

  lemma CoveredByOne(s: Span, i: int)
    ensures Covered([s], i) ==> s.Has(i)
  {
  }

  lemma CoveredWithin(ps: seq<Span>, spans: seq<Span>, i: int)
    requires AllWithin(ps, |ps|, spans) && Covered(ps, i)
    ensures Covered(spans, i)
  {
    var m :| 0 <= m < |ps| && ps[m].Has(i);
    assert Within(spans, ps[m]);
    var k :| 0 <= k < |spans| && spans[k].offset <= ps[m].offset && ps[m].End() <= spans[k].End();
    assert spans[k].Has(i);
  }

  // Whatever the bytes, packing and splitting the paragraphs is a bounded cover.
  lemma ChunksAreABoundedCover(d: Data, ps: seq<Span>, packed: seq<Span>)
    requires AreParagraphs(d, ps) && IsPacking(ps, |ps|, packed) && Ordered(packed, 0, |d|)
    ensures IsChunking(d, AllPieces(d, packed))
  {
    hide Ordered, Covered, BeginAndEndInText, BreaksSeparate, AreRuns, AllWithin, IsGreedy, AllPieces, IsText;
    InBounds(packed, |d|);
    AllPiecesTile(d, packed, |d|);
    forall i | i < |d| && IsText(d, i)
      ensures Covered(AllPieces(d, packed), i)
    {
      CoveredWithin(ps, packed, i);
    }
  }

  lemma InBounds(spans: seq<Span>, hi: nat)
    requires Ordered(spans, 0, hi)
    ensures forall k :: 0 <= k < |spans| ==> spans[k].End() <= hi
  {
  }

  // The spans of a text file: its paragraphs, packed greedily, with what is too long split.
  ghost predicate AreProseSpans(d: Data, spans: seq<Span>) {
    exists ps, packed :: AreParagraphs(d, ps) && IsPacking(ps, |ps|, packed) && Ordered(packed, 0, |d|)
      && spans == AllPieces(d, packed)
  }

  lemma ProsePacking(d: Data, spans: seq<Span>) returns (ps: seq<Span>, packed: seq<Span>)
    requires AreProseSpans(d, spans)
    ensures AreParagraphs(d, ps) && IsPacking(ps, |ps|, packed) && Ordered(packed, 0, |d|)
    ensures spans == AllPieces(d, packed)
  {
    hide AreParagraphs, IsPacking, AllPieces;
    ps, packed :| AreParagraphs(d, ps) && IsPacking(ps, |ps|, packed) && Ordered(packed, 0, |d|)
      && spans == AllPieces(d, packed);
  }

  // A file has one list of spans.
  lemma ProseSpansAreUnique(d: Data, a: seq<Span>, b: seq<Span>)
    requires AreProseSpans(d, a) && AreProseSpans(d, b)
    ensures a == b
  {
    hide Ordered, AreParagraphs, IsPacking, AllPieces, AreProseSpans;
    var ps, packed := ProsePacking(d, a);
    var ps', packed' := ProsePacking(d, b);
    ParagraphsAreUnique(d, ps, ps');
    InOrder(d, ps);
    PackingIsUnique(ps, |d|, packed, packed');
  }

  method ParagraphSpans(d: Data) returns (spans: seq<Span>)
    ensures AreProseSpans(d, spans) && IsChunking(d, spans)
  {
    hide Ordered, AreParagraphs, IsPacking, IsOpen, AllPieces, IsChunking;
    var ps := RawParagraphs(d);
    InOrder(d, ps);
    var closed: seq<Span> := [];
    var start: Option<nat> := None;
    var end: nat := 0;
    for n := 0 to |ps|
      invariant start.None? <==> n == 0
      invariant start.None? ==> closed == []
      invariant start.Some? ==> IsOpen(ps, n, closed, start.value, end)
    {
      if start.None? {
        PackFirst(ps, |d|);
        start, end := Some(ps[n].offset), ps[n].End();
      } else if ps[n].End() - start.value <= CHUNK_MAX_BYTES {
        PackMore(ps, |d|, n, closed, start.value, end);
        end := ps[n].End();
      } else {
        PackNext(ps, |d|, n, closed, start.value, end);
        OpenIsForward(ps, n, closed, start.value, end);
        closed := closed + [Span(start.value, end - start.value)];
        start, end := Some(ps[n].offset), ps[n].End();
      }
    }
    if start.Some? {
      OpenIsForward(ps, |ps|, closed, start.value, end);
      PackedAll(ps, |d|, closed, start.value, end);
      closed := closed + [Span(start.value, end - start.value)];
    } else {
      NothingPacked(ps, |d|);
    }
    InBounds(closed, |d|);
    spans := SplitOversized(d, closed);
    ChunksAreABoundedCover(d, ps, closed);
  }

  lemma OpenIsForward(ps: seq<Span>, n: nat, closed: seq<Span>, start: nat, end: nat)
    requires IsOpen(ps, n, closed, start, end)
    ensures start <= end
  {
  }

  lemma PackedAll(ps: seq<Span>, hi: nat, closed: seq<Span>, start: nat, end: nat)
    requires Ordered(ps, 0, hi) && IsOpen(ps, |ps|, closed, start, end)
    ensures start <= end && var spans := closed + [Span(start, end - start)];
            IsPacking(ps, |ps|, spans) && Ordered(spans, 0, hi)
  {
    hide IsPacking;
  }

  lemma NothingPacked(ps: seq<Span>, hi: nat)
    requires ps == []
    ensures IsPacking(ps, 0, []) && Ordered([], 0, hi)
  {
  }
}
