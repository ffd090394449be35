/**
 Keyword search over the reference tree (tools/search.py): an index of chunks, their
 scores against a query, and the ranking of the chunks that match.
 */
module Search {
  const BM25_K1 := 1.5
  const BM25_B := 0.75
  const SNIPPET_MAX_CHARS: nat := 600

  // `tf` counts the tokens of the text.
  datatype Chunk = Chunk(path: string, offset: nat, length: nat, text: string, tf: multiset<string>, tokens: nat)

  datatype Hit = Hit(path: string, offset: nat, length: nat, text: string)

  // What scoring needs to know of all chunks together: how many there are, in how many
  // each term occurs, and how many tokens they have.
  datatype Stats = Stats(n: nat, df: multiset<string>, total: nat)

  // --- statistics -----------------------------------------------------------------------

  function Keys(c: Chunk): multiset<string> {
    multiset(set t | t in c.tf)
  }

  function Counting(s: Stats, c: Chunk): Stats {
    Stats(s.n + 1, s.df + Keys(c), s.total + c.tokens)
  }

  function StatsOf(chunks: seq<Chunk>): Stats {
    if chunks == [] then Stats(0, multiset{}, 0)
    else
      Counting(StatsOf(chunks[..|chunks| - 1]), chunks[|chunks| - 1])
  }

  ghost function WithTerm(chunks: seq<Chunk>, t: string): set<int> {
    set i | 0 <= i < |chunks| && t in chunks[i].tf
  }

  // The document frequency of a term is the number of chunks that hold it.
  lemma {:induction false} DfCountsChunks(chunks: seq<Chunk>, t: string)
    ensures StatsOf(chunks).n == |chunks|
    ensures StatsOf(chunks).df[t] == |WithTerm(chunks, t)| <= |chunks|
  {
    if chunks != [] {
      var n := |chunks| - 1;
      var before := chunks[..n];
      DfCountsChunks(before, t);
      if t in chunks[n].tf {
        assert WithTerm(chunks, t) == WithTerm(before, t) + {n};
      } else {
        assert WithTerm(chunks, t) == WithTerm(before, t);
      }
    }
  }

  lemma OccursInOne(chunks: seq<Chunk>, c: Chunk, t: string)
    requires c in chunks && t in c.tf
    ensures StatsOf(chunks).df[t] > 0
  {
    DfCountsChunks(chunks, t);
    var i :| 0 <= i < |chunks| && chunks[i] == c;
    assert i in WithTerm(chunks, t);
  }

  // --- scores ---------------------------------------------------------------------------

  // What is used of the logarithm.
  ghost predicate IsLog(log: real -> real) {
    forall x: real :: x > 1.0 ==> log(x) > 0.0
  }

  function Average(s: Stats): real {
    if s.n == 0 then 0.0 else s.total as real / s.n as real
  }

  // How long a chunk is, relative to the average.
  function Relative(average: real, tokens: nat): real {
    if average == 0.0 then 1.0 else tokens as real / average
  }

  function Norm(s: Stats, tokens: nat): real {
    BM25_K1 * (1.0 - BM25_B + BM25_B * Relative(Average(s), tokens))
  }

  function Idf(s: Stats, t: string, log: real -> real): real {
    log(1.0 + ((s.n - s.df[t]) as real + 0.5) / (s.df[t] as real + 0.5))
  }

  function Gain(s: Stats, c: Chunk, t: string, log: real -> real): real {
    var tf := c.tf[t];
    NormIsPositive(s, c.tokens);
    if s.df[t] == 0 || tf == 0 then 0.0
    else Idf(s, t, log) * (tf as real * (BM25_K1 + 1.0)) / (tf as real + Norm(s, c.tokens))
  }

  // The score of a chunk: the sum of what each query term gains it.
  ghost function Score(s: Stats, terms: set<string>, c: Chunk, log: real -> real): real
    decreases |terms|
  {
    if terms == {} then 0.0
    else
      var t :| t in terms;
      Score(s, terms - {t}, c, log) + Gain(s, c, t, log)
  }

  // In exact arithmetic the terms may be added in any order.
  lemma {:induction false} ScoreInAnyOrder(s: Stats, terms: set<string>, c: Chunk, log: real -> real, t: string)
    requires t in terms
    ensures Score(s, terms, c, log) == Score(s, terms - {t}, c, log) + Gain(s, c, t, log)
    decreases |terms|
  {
    hide Gain;
    var u :| u in terms && Score(s, terms, c, log) == Score(s, terms - {u}, c, log) + Gain(s, c, u, log);
    if u != t {
      ScoreInAnyOrder(s, terms - {u}, c, log, t);
      ScoreInAnyOrder(s, terms - {t}, c, log, u);
      assert terms - {u} - {t} == terms - {t} - {u};
    }
  }

  lemma RelativeIsNonNegative(s: Stats, tokens: nat)
    ensures Relative(Average(s), tokens) >= 0.0
  {
    if Average(s) != 0.0 {
      assert Average(s) > 0.0;
      assert tokens as real / Average(s) >= 0.0;
    }
  }

  lemma NormIsPositive(s: Stats, tokens: nat)
    ensures Norm(s, tokens) > 0.0
  {
    RelativeIsNonNegative(s, tokens);
  }

  lemma IdfIsPositive(s: Stats, t: string, log: real -> real)
    requires IsLog(log) && s.df[t] <= s.n
    ensures Idf(s, t, log) > 0.0
  {
    var up, down := (s.n - s.df[t]) as real + 0.5, s.df[t] as real + 0.5;
    assert up > 0.0 && down > 0.0;
    assert up / down > 0.0;
  }

  lemma GainIsPositive(s: Stats, c: Chunk, t: string, log: real -> real)
    requires IsLog(log) && s.df[t] <= s.n
    ensures Gain(s, c, t, log) >= 0.0
    ensures Gain(s, c, t, log) > 0.0 <==> s.df[t] > 0 && t in c.tf
  {
    hide Norm, Idf;
    NormIsPositive(s, c.tokens);
    IdfIsPositive(s, t, log);
    if s.df[t] > 0 && t in c.tf {
      Positive(Idf(s, t, log), c.tf[t] as real * (BM25_K1 + 1.0), c.tf[t] as real + Norm(s, c.tokens));
    }
  }

  lemma Positive(x: real, y: real, z: real)
    requires x > 0.0 && y > 0.0 && z > 0.0
    ensures x * y / z > 0.0
  {
    assert x * y > 0.0;
  }

  // A chunk scores exactly when it holds a term of the query.
  lemma {:induction false} ScoresWhenTermsMatch(chunks: seq<Chunk>, terms: set<string>, c: Chunk, log: real -> real)
    requires IsLog(log) && c in chunks
    ensures Score(StatsOf(chunks), terms, c, log) >= 0.0
    ensures Score(StatsOf(chunks), terms, c, log) > 0.0 <==> exists t :: t in terms && t in c.tf
    decreases |terms|
  {
    hide Gain, StatsOf;
    if terms != {} {
      var s := StatsOf(chunks);
      var t :| t in terms;
      ScoreInAnyOrder(s, terms, c, log, t);
      ScoresWhenTermsMatch(chunks, terms - {t}, c, log);
      DfCountsChunks(chunks, t);
      GainIsPositive(s, c, t, log);
      if t in c.tf {
        OccursInOne(chunks, c, t);
      }
      assert forall u :: u in terms ==> u == t || u in terms - {t};
    }
  }

  // --- the order of hits ----------------------------------------------------------------

  // The order of strings: character by character, a proper prefix first.
  predicate PathLess(a: string, b: string) {
    if b == [] then false
    else if a == [] then true
    else a[0] < b[0] || (a[0] == b[0] && PathLess(a[1..], b[1..]))
  }

  lemma {:induction false} PathsAreTotal(a: string, b: string)
    ensures a == b || PathLess(a, b) || PathLess(b, a)
    ensures !(PathLess(a, b) && PathLess(b, a))
  {
    if a != [] && b != [] {
      PathsAreTotal(a[1..], b[1..]);
      assert a == [a[0]] + a[1..] && b == [b[0]] + b[1..];
    }
  }

  lemma {:induction false} PathsAreTransitive(a: string, b: string, c: string)
    requires PathLess(a, b) && PathLess(b, c)
    ensures PathLess(a, c)
  {
    if a != [] && b[0] == a[0] == c[0] {
      PathsAreTransitive(a[1..], b[1..], c[1..]);
    }
  }

  datatype Row = Row(score: real, path: string, offset: nat, chunk: Chunk)

  // Highest score first; ties by path, then by offset.
  predicate Before(a: Row, b: Row) {
    a.score > b.score || (a.score == b.score && (PathLess(a.path, b.path) || (a.path == b.path && a.offset < b.offset)))
  }

  lemma BeforeIsTotal(a: Row, b: Row)
    ensures Before(a, b) || Before(b, a) || (a.score == b.score && a.path == b.path && a.offset == b.offset)
    ensures !(Before(a, b) && Before(b, a))
  {
    PathsAreTotal(a.path, b.path);
  }

  lemma NotBeforeIsTransitive(a: Row, b: Row, c: Row)
    requires !Before(b, a) && !Before(c, b)
    ensures !Before(c, a)
  {
    PathsAreTotal(a.path, b.path);
    PathsAreTotal(b.path, c.path);
    PathsAreTotal(a.path, c.path);
    if PathLess(a.path, b.path) && PathLess(b.path, c.path) {
      PathsAreTransitive(a.path, b.path, c.path);
    }
  }

  ghost predicate IsSorted(rows: seq<Row>) {
    forall i, j :: 0 <= i < j < |rows| ==> !Before(rows[j], rows[i])
  }

  // --- rankings -------------------------------------------------------------------------

  // The rows of the chunks with a positive score, in the order of the chunks.
  ghost function RowsOf(s: Stats, terms: set<string>, log: real -> real, chunks: seq<Chunk>): seq<Row> {
    if chunks == [] then []
    else
      var c := chunks[|chunks| - 1];
      var score := Score(s, terms, c, log);
      RowsOf(s, terms, log, chunks[..|chunks| - 1]) + (if score > 0.0 then [Row(score, c.path, c.offset, c)] else [])
  }

  ghost predicate IsRanking(chunks: seq<Chunk>, terms: set<string>, log: real -> real, rows: seq<Row>) {
    IsSorted(rows) && multiset(rows) == multiset(RowsOf(StatsOf(chunks), terms, log, chunks))
  }

  // As much of a chunk's text as a hit carries.
  function Snippet(text: string): string {
    if |text| > SNIPPET_MAX_CHARS then text[..SNIPPET_MAX_CHARS] else text
  }

  function HitsOf(rows: seq<Row>): seq<Hit> {
    if rows == [] then []
    else
      var c := rows[|rows| - 1].chunk;
      HitsOf(rows[..|rows| - 1]) + [Hit(c.path, c.offset, c.length, Snippet(c.text))]
  }

  function TopOf(rows: seq<Row>, k: nat): seq<Row> {
    if k < |rows| then rows[..k] else rows
  }

  // No two chunks begin at the same place of the same file.
  ghost predicate DistinctPlaces(chunks: seq<Chunk>) {
    forall i, j :: 0 <= i < j < |chunks| ==> chunks[i].path != chunks[j].path || chunks[i].offset != chunks[j].offset
  }

  // --- the order of the chunks does not matter --------------------------------------------

  function Without<T>(s: seq<T>, i: nat): seq<T>
    requires i < |s|
  {
    s[..i] + s[i + 1..]
  }

  lemma MultisetWithout<T>(s: seq<T>, i: nat)
    requires i < |s|
    ensures multiset(s) == multiset(Without(s, i)) + multiset{s[i]}
  {
    assert s == s[..i] + [s[i]] + s[i + 1..];
  }

  lemma SameSize<T>(a: seq<T>, b: seq<T>)
    requires multiset(a) == multiset(b)
    ensures |a| == |b|
  {
    assert |multiset(a)| == |a| && |multiset(b)| == |b|;
  }

  // Where the last element of one sequence stands in a permutation of it.
  lemma Removed<T>(a: seq<T>, b: seq<T>) returns (i: nat)
    requires multiset(a) == multiset(b) && a != []
    ensures i < |b| && b[i] == a[|a| - 1] && multiset(a[..|a| - 1]) == multiset(Without(b, i))
  {
    var n := |a| - 1;
    assert a[n] in multiset(b);
    i :| 0 <= i < |b| && b[i] == a[n];
    MultisetWithout(b, i);
    MultisetWithout(a, n);
    assert Without(a, n) == a[..n];
    assert multiset(a[..n]) == multiset(a) - multiset{a[n]};
    assert multiset(Without(b, i)) == multiset(b) - multiset{a[n]};
  }

  function Plus(a: Stats, b: Stats): Stats {
    Stats(a.n + b.n, a.df + b.df, a.total + b.total)
  }

  lemma CountingLast(a: Stats, b: Stats, c: Chunk)
    ensures Counting(Plus(a, b), c) == Plus(a, Counting(b, c))
  {
    hide Keys;
    assert a.df + b.df + Keys(c) == a.df + (b.df + Keys(c));
  }

  lemma StatsLast(chunks: seq<Chunk>, c: Chunk)
    ensures StatsOf(chunks + [c]) == Counting(StatsOf(chunks), c)
  {
    hide Counting;
    assert (chunks + [c])[..|chunks|] == chunks;
  }

  lemma StatsNone(a: seq<Chunk>)
    ensures StatsOf(a) == Plus(StatsOf(a), StatsOf([]))
  {
  }

  lemma {:induction false} StatsConcat(a: seq<Chunk>, b: seq<Chunk>)
    ensures StatsOf(a + b) == Plus(StatsOf(a), StatsOf(b))
  {
    hide StatsOf, Counting, Plus;
    if b == [] {
      assert a + b == a;
      StatsNone(a);
    } else {
      var n := |b| - 1;
      assert a + b == (a + b[..n]) + [b[n]] && b == b[..n] + [b[n]];
      StatsConcat(a, b[..n]);
      StatsLast(a + b[..n], b[n]);
      StatsLast(b[..n], b[n]);
      CountingLast(StatsOf(a), StatsOf(b[..n]), b[n]);
    }
  }

  // Statistics are those of the chunks in any order.
  lemma {:induction false} StatsOfPermutation(a: seq<Chunk>, b: seq<Chunk>)
    requires multiset(a) == multiset(b)
    ensures StatsOf(a) == StatsOf(b)
    decreases |a|
  {
    hide StatsOf;
    SameSize(a, b);
    if a == [] {
      assert b == [];
    } else {
      var n := |a| - 1;
      var i := Removed(a, b);
      StatsOfPermutation(a[..n], Without(b, i));
      assert a == a[..n] + [a[n]] && b == (b[..i] + [b[i]]) + b[i + 1..];
      StatsConcat(a[..n], [a[n]]);
      StatsConcat(b[..i], b[i + 1..]);
      StatsConcat(b[..i], [b[i]]);
      StatsConcat(b[..i] + [b[i]], b[i + 1..]);
    }
  }

  lemma {:induction false} RowsConcat(s: Stats, terms: set<string>, log: real -> real, a: seq<Chunk>, b: seq<Chunk>)
    ensures RowsOf(s, terms, log, a + b) == RowsOf(s, terms, log, a) + RowsOf(s, terms, log, b)
  {
    hide Score;
    if b == [] {
      assert a + b == a;
    } else {
      var n := |b| - 1;
      assert (a + b)[..|a + b| - 1] == a + b[..n];
      RowsConcat(s, terms, log, a, b[..n]);
    }
  }

  lemma {:induction false} RowsOfPermutation(s: Stats, terms: set<string>, log: real -> real, a: seq<Chunk>,
                                             b: seq<Chunk>)
    requires multiset(a) == multiset(b)
    ensures multiset(RowsOf(s, terms, log, a)) == multiset(RowsOf(s, terms, log, b))
    decreases |a|
  {
    hide RowsOf;
    SameSize(a, b);
    if a == [] {
      assert b == [];
    } else {
      var n := |a| - 1;
      var i := Removed(a, b);
      RowsOfPermutation(s, terms, log, a[..n], Without(b, i));
      assert a == a[..n] + [a[n]] && b == (b[..i] + [b[i]]) + b[i + 1..];
      RowsConcat(s, terms, log, a[..n], [a[n]]);
      RowsConcat(s, terms, log, b[..i], b[i + 1..]);
      RowsConcat(s, terms, log, b[..i], [b[i]]);
      RowsConcat(s, terms, log, b[..i] + [b[i]], b[i + 1..]);
    }
  }

  // --- the ranking is determined ----------------------------------------------------------

  // No two rows are for the same place.
  ghost predicate NoTies(rows: multiset<Row>) {
    forall q, r :: q in rows && r in rows && q.path == r.path && q.offset == r.offset ==> q == r
  }

  lemma NoneBeforeFirst(a: seq<Row>, r: Row)
    requires IsSorted(a) && r in a
    ensures r == a[0] || !Before(r, a[0])
  {
    hide Before;
    var j :| 0 <= j < |a| && a[j] == r;
  }

  lemma SameFirst(a: seq<Row>, b: seq<Row>)
    requires IsSorted(a) && IsSorted(b) && multiset(a) == multiset(b) && NoTies(multiset(a)) && a != [] && b != []
    ensures a[0] == b[0]
  {
    hide Before, IsSorted;
    assert a[0] in multiset(b) && b[0] in multiset(a);
    NoneBeforeFirst(a, b[0]);
    NoneBeforeFirst(b, a[0]);
    BeforeIsTotal(a[0], b[0]);
  }

  lemma SplitFirst(a: seq<Row>)
    requires a != []
    ensures multiset(a[1..]) == multiset(a) - multiset{a[0]}
    ensures IsSorted(a) ==> IsSorted(a[1..])
    ensures NoTies(multiset(a)) ==> NoTies(multiset(a[1..]))
  {
    hide Before;
    assert a == [a[0]] + a[1..];
    assert forall r :: r in multiset(a[1..]) ==> r in multiset(a);
  }

  // Rows without ties have one sorted order.
  lemma {:induction false} SortedIsUnique(a: seq<Row>, b: seq<Row>)
    requires IsSorted(a) && IsSorted(b) && multiset(a) == multiset(b) && NoTies(multiset(a))
    ensures a == b
    decreases |a|
  {
    hide IsSorted, NoTies;
    SameSize(a, b);
    if a != [] {
      SameFirst(a, b);
      SplitFirst(a);
      SplitFirst(b);
      SortedIsUnique(a[1..], b[1..]);
      assert a == [a[0]] + a[1..] && b == [b[0]] + b[1..];
    }
  }

  ghost predicate IsRowOf(s: Stats, terms: set<string>, log: real -> real, r: Row) {
    r.score > 0.0 && r == Row(Score(s, terms, r.chunk, log), r.chunk.path, r.chunk.offset, r.chunk)
  }

  lemma {:induction false} RowsAreOfChunks(s: Stats, terms: set<string>, log: real -> real, chunks: seq<Chunk>, r: Row)
    ensures r in RowsOf(s, terms, log, chunks) <==> r.chunk in chunks && IsRowOf(s, terms, log, r)
  {
    hide Score;
    if chunks != [] {
      var n := |chunks| - 1;
      RowsAreOfChunks(s, terms, log, chunks[..n], r);
      assert chunks == chunks[..n] + [chunks[n]];
    }
  }

  lemma PlacesDoNotTie(s: Stats, terms: set<string>, log: real -> real, chunks: seq<Chunk>)
    requires DistinctPlaces(chunks)
    ensures NoTies(multiset(RowsOf(s, terms, log, chunks)))
  {
    hide Score, RowsOf;
    var rows := multiset(RowsOf(s, terms, log, chunks));
    forall q, r | q in rows && r in rows && q.path == r.path && q.offset == r.offset
      ensures q == r
    {
      RowsAreOfChunks(s, terms, log, chunks, q);
      RowsAreOfChunks(s, terms, log, chunks, r);
      SamePlace(chunks, q.chunk, r.chunk);
    }
  }

  lemma SamePlace(chunks: seq<Chunk>, c: Chunk, d: Chunk)
    requires DistinctPlaces(chunks) && c in chunks && d in chunks && c.path == d.path && c.offset == d.offset
    ensures c == d
  {
    var i :| 0 <= i < |chunks| && chunks[i] == c;
    var j :| 0 <= j < |chunks| && chunks[j] == d;
  }

  // The ranking is a function of which chunks there are and which terms are asked for:
  // the order of the chunks, and the order and repetition of the terms, change nothing.
  lemma RankingIsDetermined(a: seq<Chunk>, b: seq<Chunk>, query: seq<string>, query': seq<string>, log: real -> real,
                            ranked: seq<Row>, ranked': seq<Row>)
    requires multiset(a) == multiset(b) && DistinctPlaces(a)
    requires TermsOf(query) == TermsOf(query')
    requires IsRanking(a, TermsOf(query), log, ranked) && IsRanking(b, TermsOf(query'), log, ranked')
    ensures ranked == ranked'
  {
    hide IsSorted, StatsOf, RowsOf, NoTies, DistinctPlaces;
    var terms := TermsOf(query);
    StatsOfPermutation(a, b);
    RowsOfPermutation(StatsOf(a), terms, log, a, b);
    PlacesDoNotTie(StatsOf(a), terms, log, a);
    SortedIsUnique(ranked, ranked');
  }

  ghost function TermsOf(query: seq<string>): set<string> {
    set t | t in query
  }

  // A chunk is ranked exactly when it holds a term of the query.
  lemma RankedWhenTermsMatch(chunks: seq<Chunk>, terms: set<string>, log: real -> real, ranked: seq<Row>, c: Chunk)
    requires IsLog(log) && IsRanking(chunks, terms, log, ranked) && c in chunks
    ensures (exists r :: r in ranked && r.chunk == c) <==> exists t :: t in terms && t in c.tf
  {
    hide IsSorted, StatsOf, RowsOf, Score, IsLog;
    var s := StatsOf(chunks);
    var r := Row(Score(s, terms, c, log), c.path, c.offset, c);
    ScoresWhenTermsMatch(chunks, terms, c, log);
    RowsAreOfChunks(s, terms, log, chunks, r);
    assert r in ranked <==> r in multiset(ranked);
    forall q | q in ranked && q.chunk == c
      ensures q == r
    {
      assert q in multiset(ranked);
      RowsAreOfChunks(s, terms, log, chunks, q);
    }
  }

  lemma {:induction false} HitsOfPrefix(rows: seq<Row>, k: nat)
    requires k <= |rows|
    ensures |HitsOf(rows)| == |rows| && HitsOf(rows)[..k] == HitsOf(rows[..k])
    decreases |rows|
  {
    if k == |rows| {
      assert rows[..k] == rows;
      if k > 0 {
        HitsOfPrefix(rows[..k - 1], k - 1);
      }
    } else {
      HitsOfPrefix(rows[..|rows| - 1], k);
      assert rows[..|rows| - 1][..k] == rows[..k];
    }
  }

  // Asking for more hits only adds hits at the end.
  lemma TopKIsAPrefix(ranked: seq<Row>, k: nat)
    ensures |HitsOf(TopOf(ranked, k))| == (if k < |ranked| then k else |ranked|)
    ensures HitsOf(TopOf(ranked, k)) <= HitsOf(TopOf(ranked, k + 1))
  {
    hide HitsOf;
    HitsOfPrefix(TopOf(ranked, k), 0);
    if k < |ranked| {
      var more := TopOf(ranked, k + 1);
      assert more[..k] == ranked[..k];
      HitsOfPrefix(more, k);
    }
  }
}
