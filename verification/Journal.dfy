/**
 The rolling session journal (journal.py): a file of lines, cut back to a byte bound by
 dropping whole oldest lines, the newest always kept.
 */
module Journal {
  import opened Options
  import opened Bytes

  predicate IsLine(l: Data) {
    l != [] && NEWLINE !in l
  }

  predicate AreLines(ls: seq<Data>) {
    forall i :: 0 <= i < |ls| ==> IsLine(ls[i])
  }

  // The file that holds these lines.
  function Join(ls: seq<Data>): Data {
    if ls == [] then [] else ls[0] + [NEWLINE] + Join(ls[1..])
  }

  lemma {:induction false} JoinConcat(a: seq<Data>, b: seq<Data>)
    ensures Join(a + b) == Join(a) + Join(b)
  {
    if a == [] {
      assert a + b == b;
    } else {
      assert (a + b)[1..] == a[1..] + b;
      JoinConcat(a[1..], b);
    }
  }

  lemma JoinOne(l: Data)
    ensures Join([l]) == l + [NEWLINE]
  {
    assert Join([l]) == l + [NEWLINE] + Join([]);
  }

  // --- rolling --------------------------------------------------------------------------

  function FindNewline(d: Data): Option<nat> {
    if d == [] then None
    else if d[0] == NEWLINE then Some(0)
    else match FindNewline(d[1..])
      case None => None
      case Some(i) => Some(i + 1)
  }

  lemma {:induction false} FindNewlineIs(d: Data)
    ensures match FindNewline(d)
            case None => NEWLINE !in d
            case Some(i) => i < |d| && d[i] == NEWLINE && NEWLINE !in d[..i]
  {
    if d != [] && d[0] != NEWLINE {
      FindNewlineIs(d[1..]);
      assert d == [d[0]] + d[1..];
      if FindNewline(d[1..]).Some? {
        var i := FindNewline(d[1..]).value;
        assert d[..i + 1] == [d[0]] + d[1..][..i];
      }
    }
  }

  function Roll(data: Data, maxBytes: nat): Data
    decreases |data|
  {
    if |data| <= maxBytes then data else
      match FindNewline(data)
      case None => data
      case Some(cut) => if cut + 1 >= |data| then data else Roll(data[cut + 1..], maxBytes)
  }

  class JournalFile {
    var data: Data

    constructor ()
      ensures data == []
    {
      data := [];
    }

    // Append one entry and roll the file.
    method Append(line: Data, maxBytes: nat)
      modifies this
      ensures data == Roll(old(data) + line + [NEWLINE], maxBytes)
    {
      data := data + line + [NEWLINE];
      ghost var whole := data;
      while |data| > maxBytes
        invariant Roll(data, maxBytes) == Roll(whole, maxBytes)
        decreases |data|
      {
        var cut := FindNewline(data);
        if cut.None? || cut.value + 1 >= |data| {
          break;
        }
        data := data[cut.value + 1..];
      }
    }
  }

  // --- what rolling keeps -----------------------------------------------------------------

  lemma {:induction false} FirstNewline(l: Data, rest: Data)
    requires NEWLINE !in l
    ensures FindNewline(l + [NEWLINE] + rest) == Some(|l|)
  {
    if l == [] {
      assert (l + [NEWLINE] + rest)[0] == NEWLINE;
    } else {
      assert (l + [NEWLINE] + rest)[1..] == l[1..] + [NEWLINE] + rest;
      FirstNewline(l[1..], rest);
    }
  }

  // A file over its bound loses its first line, unless it is the only one.
  lemma RollDropsOne(ls: seq<Data>, maxBytes: nat)
    requires AreLines(ls) && |ls| > 1 && |Join(ls)| > maxBytes
    ensures Roll(Join(ls), maxBytes) == Roll(Join(ls[1..]), maxBytes)
  {
    FirstNewline(ls[0], Join(ls[1..]));
    assert Join(ls)[|ls[0]| + 1..] == Join(ls[1..]);
    assert Join(ls[1..]) != [];
  }

  lemma {:induction false} RollDrops(ls: seq<Data>, maxBytes: nat, k: nat)
    requires AreLines(ls) && k < |ls|
    requires forall j :: 0 <= j < k ==> |Join(ls[j..])| > maxBytes
    ensures Roll(Join(ls), maxBytes) == Roll(Join(ls[k..]), maxBytes)
  {
    if k == 0 {
      assert ls[0..] == ls;
    } else {
      assert ls[0..] == ls;
      RollDropsOne(ls, maxBytes);
      forall j | 0 <= j < k - 1
        ensures |Join(ls[1..][j..])| > maxBytes
      {
        assert ls[1..][j..] == ls[j + 1..];
      }
      RollDrops(ls[1..], maxBytes, k - 1);
      assert ls[1..][k - 1..] == ls[k..];
    }
  }

  // A file may be cut at its beginning or after a newline that is not its last byte.
  predicate MayCutAt(data: Data, k: int) {
    0 <= k <= |data| && (k == 0 || (k < |data| && data[k - 1] == NEWLINE))
  }

  // There is no such place up to the first newline, nor at all without one to cut at.
  lemma FirstCut(data: Data, j: int)
    requires MayCutAt(data, j) && j > 0
    ensures FindNewline(data).Some? && FindNewline(data).value + 1 <= j < |data|
  {
    assert data[j - 1] in data;
    FindNewlineIs(data);
    match FindNewline(data) {
      case None =>
      case Some(i) =>
        forall p | 0 <= p < i
          ensures data[p] != NEWLINE
        {
          assert data[..i][p] == data[p];
        }
    }
  }

  // What rolling does to any bytes: it cuts them at the first place at which what is left
  // fits, or at the last place there is.
  lemma {:induction false} RollOfAnyBytes(data: Data, maxBytes: nat) returns (k: nat)
    ensures MayCutAt(data, k) && Roll(data, maxBytes) == data[k..]
    ensures forall j :: MayCutAt(data, j) && j < k ==> |data| - j > maxBytes
    ensures |data| - k > maxBytes ==> forall j :: MayCutAt(data, j) ==> j <= k
    decreases |data|
  {
    k := 0;
    FindNewlineIs(data);
    forall j | MayCutAt(data, j) && j > 0
      ensures FindNewline(data).Some? && FindNewline(data).value + 1 <= j < |data|
    {
      FirstCut(data, j);
    }
    if |data| > maxBytes && FindNewline(data).Some? && FindNewline(data).value + 1 < |data| {
      var at := FindNewline(data).value + 1;
      var rest := RollOfAnyBytes(data[at..], maxBytes);
      k := at + rest;
      assert data[at..][rest..] == data[k..];
      assert MayCutAt(data[at..], rest);
      forall j | MayCutAt(data, j) && j > 0
        ensures MayCutAt(data[at..], j - at)
      {
      }
    }
  }

  // Lines from `k` on are the most that may be kept: they fit, or are the newest line
  // alone, and nothing longer fits.
  ghost predicate IsKept(ls: seq<Data>, maxBytes: nat, k: nat) {
    && k < |ls|
    && (|Join(ls[k..])| <= maxBytes || k == |ls| - 1)
    && forall j :: 0 <= j < k ==> |Join(ls[j..])| > maxBytes
  }

  // Rolling keeps the longest suffix of whole lines within the bound, or just the
  // newest line.
  lemma {:induction false} RollKeepsTheLongestSuffix(ls: seq<Data>, maxBytes: nat) returns (k: nat)
    requires AreLines(ls) && ls != []
    ensures IsKept(ls, maxBytes, k) && Roll(Join(ls), maxBytes) == Join(ls[k..])
  {
    if |Join(ls)| <= maxBytes {
      k := 0;
      assert ls[0..] == ls;
    } else if |ls| == 1 {
      k := 0;
      assert ls[0..] == ls && ls == [ls[0]];
      JoinOne(ls[0]);
      FirstNewline(ls[0], []);
      assert ls[0] + [NEWLINE] + [] == Join(ls);
    } else {
      var k' := RollKeepsTheLongestSuffix(ls[1..], maxBytes);
      k := k' + 1;
      RollDropsOne(ls, maxBytes);
      assert ls[1..][k'..] == ls[k..];
      forall j | 0 <= j < k
        ensures |Join(ls[j..])| > maxBytes
      {
        if j == 0 {
          assert ls[0..] == ls;
        } else {
          assert ls[1..][j - 1..] == ls[j..];
        }
      }
    }
  }

  // The file after appending the lines one by one, rolling each time.
  function RollEach(ls: seq<Data>, maxBytes: nat): Data {
    if ls == [] then [] else Roll(RollEach(ls[..|ls| - 1], maxBytes) + ls[|ls| - 1] + [NEWLINE], maxBytes)
  }

  // Rolling after every append is rolling the complete history once.
  lemma {:induction false} RollingIsOneShot(ls: seq<Data>, maxBytes: nat)
    requires AreLines(ls)
    ensures RollEach(ls, maxBytes) == Roll(Join(ls), maxBytes)
  {
    if ls != [] {
      var n := |ls| - 1;
      var before, last := ls[..n], ls[n];
      assert ls == before + [last];
      RollingIsOneShot(before, maxBytes);
      if n == 0 {
        JoinOne(last);
        assert RollEach(before, maxBytes) + last + [NEWLINE] == Join(ls);
      } else {
        var k := RollKeepsTheLongestSuffix(before, maxBytes);
        AppendToKept(before, last, maxBytes, k);
        RollDrops(ls, maxBytes, k);
      }
    }
  }

  lemma AppendToJoin(before: seq<Data>, last: Data, j: nat)
    requires j <= |before|
    ensures Join((before + [last])[j..]) == Join(before[j..]) + last + [NEWLINE]
  {
    JoinOne(last);
    assert (before + [last])[j..] == before[j..] + [last];
    JoinConcat(before[j..], [last]);
    assert Join(before[j..]) + (last + [NEWLINE]) == Join(before[j..]) + last + [NEWLINE];
  }

  lemma AppendToKept(before: seq<Data>, last: Data, maxBytes: nat, k: nat)
    requires k < |before|
    requires forall j :: 0 <= j < k ==> |Join(before[j..])| > maxBytes
    ensures Join(before[k..]) + last + [NEWLINE] == Join((before + [last])[k..])
    ensures forall j :: 0 <= j < k ==> |Join((before + [last])[j..])| > maxBytes
  {
    AppendToJoin(before, last, k);
    forall j | 0 <= j < k
      ensures |Join((before + [last])[j..])| > maxBytes
    {
      AppendToJoin(before, last, j);
    }
  }

  // --- the slice of the last entry --------------------------------------------------------------

  function StripNewlines(d: Data): Data {
    if d != [] && d[|d| - 1] == NEWLINE then StripNewlines(d[..|d| - 1]) else d
  }

  // One past the last newline, or 0.
  function AfterLastNewline(d: Data): nat {
    if d == [] then 0 else if d[|d| - 1] == NEWLINE then |d| else AfterLastNewline(d[..|d| - 1])
  }

  // Offset and length; None for a file with no entry.
  function LastEntrySlice(raw: Data): Option<(nat, int)> {
    var stripped := StripNewlines(raw);
    if stripped == [] then None
    else var start := AfterLastNewline(stripped); Some((start, |stripped| - start))
  }

  lemma {:induction false} LastLineStart(before: Data, l: Data)
    requires NEWLINE !in l && (before == [] || before[|before| - 1] == NEWLINE)
    ensures AfterLastNewline(before + l) == |before|
  {
    if l == [] {
      assert before + l == before;
    } else {
      assert (before + l)[..|before + l| - 1] == before + l[..|l| - 1];
      LastLineStart(before, l[..|l| - 1]);
    }
  }

  lemma {:induction false} JoinEndsInNewline(ls: seq<Data>)
    requires ls != []
    ensures Join(ls) != [] && Join(ls)[|Join(ls)| - 1] == NEWLINE
  {
    if |ls| > 1 {
      JoinEndsInNewline(ls[1..]);
    } else {
      JoinOne(ls[0]);
      assert ls == [ls[0]];
    }
  }

  lemma StripOne(d: Data)
    requires d != [] && d[|d| - 1] != NEWLINE
    ensures StripNewlines(d + [NEWLINE]) == d
  {
    assert (d + [NEWLINE])[..|d|] == d;
  }

  // A file has no last entry exactly when there is nothing in it but newlines.
  lemma {:induction false} NoEntryExactly(raw: Data)
    ensures LastEntrySlice(raw).None? <==> forall i :: 0 <= i < |raw| ==> raw[i] == NEWLINE
  {
    if raw != [] && raw[|raw| - 1] == NEWLINE {
      NoEntryExactly(raw[..|raw| - 1]);
    }
  }

  // What the slice addresses in the file of these lines.
  ghost predicate SliceIsLast(raw: Data, last: Data) {
    match LastEntrySlice(raw)
    case None => false
    case Some((offset, length)) =>
      offset <= |raw| && 0 <= length <= |raw| - offset && raw[offset..offset + length] == last
  }

  lemma SliceAfterWholeLines(before: Data, last: Data)
    requires IsLine(last) && (before == [] || before[|before| - 1] == NEWLINE)
    ensures SliceIsLast(before + last + [NEWLINE], last)
  {
    hide StripNewlines, AfterLastNewline;
    var raw := before + last + [NEWLINE];
    StripOne(before + last);
    LastLineStart(before, last);
    assert LastEntrySlice(raw) == Some((|before|, |last|));
    assert raw[|before|..|before| + |last|] == last;
  }

  lemma LastEntryOfLines(ls: seq<Data>)
    requires AreLines(ls) && ls != []
    ensures SliceIsLast(Join(ls), ls[|ls| - 1])
  {
    hide Join, LastEntrySlice;
    var n := |ls| - 1;
    var before, last := ls[..n], ls[n];
    assert ls == before + [last];
    JoinConcat(before, [last]);
    JoinOne(last);
    assert Join(ls) == Join(before) + last + [NEWLINE];
    if n > 0 {
      JoinEndsInNewline(before);
    } else {
      JoinNone();
      assert before == [];
    }
    SliceAfterWholeLines(Join(before), last);
  }

  lemma JoinNone()
    ensures Join([]) == []
  {
  }

  // After any appends, however the file was rolled, the slice addresses exactly the
  // bytes of the entry appended last.
  lemma LastAppendIsAddressed(ls: seq<Data>, maxBytes: nat)
    requires AreLines(ls) && ls != []
    ensures SliceIsLast(RollEach(ls, maxBytes), ls[|ls| - 1])
  {
    RollingIsOneShot(ls, maxBytes);
    var k := RollKeepsTheLongestSuffix(ls, maxBytes);
    LastEntryOfLines(ls[k..]);
  }
}
