/**
 What the order of hits and the weights of terms mean (tools/search.py): said of scores,
 paths and offsets themselves, and of the numbers the score is made of.
 */
module SearchOrder {
  import opened Search

  // --- the order of paths -----------------------------------------------------------------------------

  // The first place at which two paths differ: one of them ends there, or their
  // characters differ.
  ghost predicate DifferAt(a: string, b: string, k: int) {
    && 0 <= k <= |a| && k <= |b| && a[..k] == b[..k]
    && (k < |a| || k < |b|) && (k < |a| && k < |b| ==> a[k] != b[k])
  }

  // A path is before another when it ends at the first difference, or has the smaller
  // character there.
  lemma {:induction false} PathLessIs(a: string, b: string)
    ensures PathLess(a, b)
            <==> exists k :: DifferAt(a, b, k) && (k == |a| || (k < |b| && a[k] < b[k]))
  {
    if a == [] || b == [] {
      assert a[..0] == b[..0];
      assert a != b ==> DifferAt(a, b, 0);
    } else if a[0] != b[0] {
      assert a[..0] == b[..0];
      assert DifferAt(a, b, 0);
      forall k | 0 < k <= |a| && k <= |b|
        ensures !DifferAt(a, b, k)
      {
        assert a[..k][0] == a[0] && b[..k][0] == b[0];
      }
    } else {
      PathLessIs(a[1..], b[1..]);
      forall k | DifferAt(a, b, k)
        ensures k > 0 && DifferAt(a[1..], b[1..], k - 1)
      {
        assert a[1..][..k - 1] == a[..k][1..] == b[..k][1..] == b[1..][..k - 1];
      }
      forall k | DifferAt(a[1..], b[1..], k)
        ensures DifferAt(a, b, k + 1)
      {
        assert a[..k + 1] == [a[0]] + a[1..][..k];
        assert b[..k + 1] == [b[0]] + b[1..][..k];
      }
      if PathLess(a, b) {
        var k :| DifferAt(a[1..], b[1..], k) && (k == |a[1..]| || (k < |b[1..]| && a[1..][k] < b[1..][k]));
        assert DifferAt(a, b, k + 1);
      }
    }
  }

  // --- the order of a ranking -----------------------------------------------------------------------

  lemma NoneTwice<T>(s: seq<T>, i: nat, j: nat)
    requires i < j < |s| && s[i] == s[j]
    ensures multiset(s)[s[i]] >= 2
  {
    assert s == s[..j] + s[j..];
    assert s[i] == s[..j][i] && s[i] == s[j..][0];
    assert s[i] in s[..j] && s[i] in s[j..];
  }

  lemma Twice<T>(s: seq<T>, x: T) returns (i: nat, j: nat)
    requires multiset(s)[x] >= 2
    ensures i < j < |s| && s[i] == s[j] == x
  {
    assert x in multiset(s);
    i :| 0 <= i < |s| && s[i] == x;
    var rest := Without(s, i);
    MultisetWithout(s, i);
    assert x in multiset(rest);
    var k :| 0 <= k < |rest| && rest[k] == x;
    if k < i {
      i, j := k, i;
    } else {
      j := k + 1;
    }
  }

  ghost predicate RowPlacesDiffer(rows: seq<Row>) {
    forall i, j :: 0 <= i < j < |rows| ==> rows[i].path != rows[j].path || rows[i].offset != rows[j].offset
  }

  lemma {:induction false} RowsOfDistinctPlaces(s: Stats, terms: set<string>, log: real -> real, chunks: seq<Chunk>)
    requires DistinctPlaces(chunks)
    ensures RowPlacesDiffer(RowsOf(s, terms, log, chunks))
  {
    if chunks != [] {
      hide Score;
      var n := |chunks| - 1;
      RowsOfDistinctPlaces(s, terms, log, chunks[..n]);
      var before := RowsOf(s, terms, log, chunks[..n]);
      forall i | 0 <= i < |before|
        ensures before[i].path != chunks[n].path || before[i].offset != chunks[n].offset
      {
        RowsAreOfChunks(s, terms, log, chunks[..n], before[i]);
        var k :| 0 <= k < n && chunks[..n][k] == before[i].chunk;
        assert chunks[k] == before[i].chunk;
      }
    }
  }

  // Of two rows of a ranking the earlier has the higher score; with the same score it has
  // the smaller path; of the same file the smaller offset.
  lemma RankingIsInOrder(chunks: seq<Chunk>, terms: set<string>, log: real -> real, ranked: seq<Row>, i: nat, j: nat)
    requires IsRanking(chunks, terms, log, ranked) && DistinctPlaces(chunks) && i < j < |ranked|
    ensures ranked[i].score >= ranked[j].score
    ensures ranked[i].score == ranked[j].score ==>
              || PathLess(ranked[i].path, ranked[j].path)
              || (ranked[i].path == ranked[j].path && ranked[i].offset < ranked[j].offset)
  {
    hide StatsOf, RowsOf, PathLess, DistinctPlaces;
    var a, b := ranked[i], ranked[j];
    PathsAreTotal(a.path, b.path);
    if a.path == b.path && a.offset == b.offset {
      var rows := RowsOf(StatsOf(chunks), terms, log, chunks);
      RowsOfDistinctPlaces(StatsOf(chunks), terms, log, chunks);
      PlacesDoNotTie(StatsOf(chunks), terms, log, chunks);
      assert a in multiset(ranked) && b in multiset(ranked);
      NoneTwice(ranked, i, j);
      var k, l := Twice(rows, a);
      assert false;
    }
  }

  // --- the best chunks ----------------------------------------------------------------------------------

  // The hit of a chunk quotes at most its first 600 characters.
  predicate IsHitOf(h: Hit, c: Chunk) {
    && h.path == c.path && h.offset == c.offset && h.length == c.length
    && h.text <= c.text && |h.text| == if |c.text| < 600 then |c.text| else 600
  }

  // `best` are matching chunks, best first, and no chunk that matches better is left out.
  ghost predicate AreBest(chunks: seq<Chunk>, terms: set<string>, k: nat, log: real -> real, best: seq<Chunk>) {
    var s := StatsOf(chunks);
    && |best| <= k
    && (forall i :: 0 <= i < |best| ==> best[i] in chunks && Score(s, terms, best[i], log) > 0.0)
    && (forall i, j :: 0 <= i < j < |best| ==>
                         Score(s, terms, best[i], log) >= Score(s, terms, best[j], log))
    && (forall c :: c in chunks && c !in best && Score(s, terms, c, log) > 0.0 ==>
                      |best| == k && forall i :: 0 <= i < k ==>
                                                   Score(s, terms, best[i], log) >= Score(s, terms, c, log))
  }

  function ChunksOf(rows: seq<Row>): (chunks: seq<Chunk>)
    ensures |chunks| == |rows| && forall i :: 0 <= i < |rows| ==> chunks[i] == rows[i].chunk
  {
    seq(|rows|, i requires 0 <= i < |rows| => rows[i].chunk)
  }

  lemma {:induction false} HitsAreOfRows(rows: seq<Row>)
    ensures |HitsOf(rows)| == |rows| && forall i :: 0 <= i < |rows| ==> IsHitOf(HitsOf(rows)[i], rows[i].chunk)
  {
    if rows != [] {
      var n := |rows| - 1;
      HitsAreOfRows(rows[..n]);
      assert forall i :: 0 <= i < n ==> rows[..n][i] == rows[i];
    }
  }

  lemma RankedRow(chunks: seq<Chunk>, terms: set<string>, log: real -> real, ranked: seq<Row>, i: nat)
    requires IsRanking(chunks, terms, log, ranked) && i < |ranked|
    ensures ranked[i].chunk in chunks && ranked[i].score == Score(StatsOf(chunks), terms, ranked[i].chunk, log) > 0.0
  {
    hide StatsOf, RowsOf, Score, IsSorted;
    assert ranked[i] in multiset(ranked);
    RowsAreOfChunks(StatsOf(chunks), terms, log, chunks, ranked[i]);
  }

  lemma RankedChunk(chunks: seq<Chunk>, terms: set<string>, log: real -> real, ranked: seq<Row>, c: Chunk)
    returns (i: nat)
    requires IsRanking(chunks, terms, log, ranked) && c in chunks && Score(StatsOf(chunks), terms, c, log) > 0.0
    ensures i < |ranked| && ranked[i].chunk == c
  {
    hide StatsOf, RowsOf, Score, IsSorted;
    var r := Row(Score(StatsOf(chunks), terms, c, log), c.path, c.offset, c);
    RowsAreOfChunks(StatsOf(chunks), terms, log, chunks, r);
    assert r in multiset(ranked);
    i :| 0 <= i < |ranked| && ranked[i] == r;
  }

  // In any ranking a higher score comes first.
  lemma ScoresFall(chunks: seq<Chunk>, terms: set<string>, log: real -> real, ranked: seq<Row>, i: nat, j: nat)
    requires IsRanking(chunks, terms, log, ranked) && i <= j < |ranked|
    ensures ranked[i].score >= ranked[j].score
  {
    hide StatsOf, RowsOf, PathLess;
  }

  // The first k of a ranking are the best k chunks.
  lemma TopIsBest(chunks: seq<Chunk>, terms: set<string>, k: nat, log: real -> real, ranked: seq<Row>)
    requires IsRanking(chunks, terms, log, ranked)
    ensures AreBest(chunks, terms, k, log, ChunksOf(TopOf(ranked, k)))
  {
    hide StatsOf, Score, IsRanking;
    var s, best := StatsOf(chunks), ChunksOf(TopOf(ranked, k));
    forall i | 0 <= i < |best|
      ensures best[i] in chunks && Score(s, terms, best[i], log) > 0.0
      ensures Score(s, terms, best[i], log) == ranked[i].score
    {
      RankedRow(chunks, terms, log, ranked, i);
    }
    forall i, j | 0 <= i < j < |best|
      ensures Score(s, terms, best[i], log) >= Score(s, terms, best[j], log)
    {
      ScoresFall(chunks, terms, log, ranked, i, j);
    }
    forall c | c in chunks && c !in best && Score(s, terms, c, log) > 0.0
      ensures |best| == k && forall i :: 0 <= i < k ==> Score(s, terms, best[i], log) >= Score(s, terms, c, log)
    {
      var j := RankedChunk(chunks, terms, log, ranked, c);
      RankedRow(chunks, terms, log, ranked, j);
      forall i | 0 <= i < k
        ensures Score(s, terms, best[i], log) >= Score(s, terms, c, log)
      {
        ScoresFall(chunks, terms, log, ranked, i, j);
      }
    }
  }

  // --- what a term gains a chunk ------------------------------------------------------------------------

  // A chunk that does not hold the term gains nothing from it, and neither does any chunk
  // from a term that no chunk holds.
  lemma NothingToGain(s: Stats, c: Chunk, t: string, log: real -> real)
    requires t !in c.tf || t !in s.df
    ensures Gain(s, c, t, log) == 0.0
  {
  }

  // The weight of a term, in one fraction: rarer terms weigh more.
  lemma WeightIs(s: Stats, t: string, log: real -> real)
    requires s.df[t] <= s.n
    ensures Idf(s, t, log) == log((s.n as real + 1.0) / (s.df[t] as real + 0.5))
  {
    var n, df := s.n as real, s.df[t] as real;
    assert 1.0 + (n - df + 0.5) / (df + 0.5) == (n + 1.0) / (df + 0.5) by {
      OneMoreThanAFraction(n - df + 0.5, df + 0.5);
    }
    assert (s.n - s.df[t]) as real == n - df;
  }

  // What is used of the logarithm here: it grows.
  ghost predicate IsIncreasing(log: real -> real) {
    forall x: real, y: real :: 0.0 < x < y ==> log(x) < log(y)
  }

  lemma RarerTermsWeighMore(s: Stats, t: string, u: string, log: real -> real)
    requires IsIncreasing(log) && s.df[t] < s.df[u] <= s.n
    ensures Idf(s, t, log) > Idf(s, u, log)
  {
    hide Idf;
    WeightIs(s, t, log);
    WeightIs(s, u, log);
    var n, few, many := s.n as real + 1.0, s.df[t] as real + 0.5, s.df[u] as real + 0.5;
    assert 0.0 < n / many < n / few by {
      Cancels(n, many);
      Cancels(n, few);
      Quotient(n, many);
      Quotient(n, few);
      Diluted(n / few, n / many, n, few, many);
    }
  }

  function Tokens(chunks: seq<Chunk>): nat {
    if chunks == [] then 0 else chunks[0].tokens + Tokens(chunks[1..])
  }

  // The average length is that of the chunks.
  lemma {:induction false} TotalCountsTokens(chunks: seq<Chunk>)
    ensures StatsOf(chunks).total == Tokens(chunks)
    ensures chunks != [] ==> Average(StatsOf(chunks)) == Tokens(chunks) as real / |chunks| as real
  {
    DfCountsChunks(chunks, "");
    if chunks != [] {
      assert chunks == [chunks[0]] + chunks[1..];
      StatsConcat([chunks[0]], chunks[1..]);
      StatsOfOne(chunks[0]);
      TotalCountsTokens(chunks[1..]);
    }
  }

  lemma StatsOfOne(c: Chunk)
    ensures StatsOf([c]).total == c.tokens
  {
    assert [c][..0] == [];
  }

  lemma OneMoreThanAFraction(x: real, y: real)
    requires y > 0.0
    ensures 1.0 + x / y == (y + x) / y
  {
    Cancels(x, y);
    Cancels(y + x, y);
    assert (1.0 + x / y) * y == y + x / y * y;
    SameFactor(1.0 + x / y, (y + x) / y, y);
  }

  // How a chunk's length counts: in a chunk of average length the constant is 1.5, in an
  // empty one a quarter of that, and in between and beyond it grows evenly.
  lemma NormIs(s: Stats, tokens: nat)
    requires s.n > 0 && s.total > 0
    ensures Norm(s, tokens) * s.total as real
            == 0.375 * s.total as real + 1.125 * (tokens as real * s.n as real)
  {
    var n, total := s.n as real, s.total as real;
    var average := total / n;
    assert Average(s) == average && average > 0.0 by { Quotient(total, n); }
    var relative := tokens as real / average;
    assert relative * total == tokens as real * n by { TimesQuotient(tokens as real, total, n); }
    assert Norm(s, tokens) == 0.375 + 1.125 * relative;
    assert (0.375 + 1.125 * relative) * total == 0.375 * total + 1.125 * (relative * total);
  }

  // Chunks of which none has a token count as average.
  lemma NormOfNothing(s: Stats, tokens: nat)
    requires s.n == 0 || s.total == 0
    ensures Norm(s, tokens) == 1.5
  {
    if s.n > 0 {
      Cancels(0.0, s.n as real);
    }
  }

  lemma Quotient(x: real, y: real)
    requires x > 0.0 && y > 0.0
    ensures x / y > 0.0
  {
  }

  lemma TimesQuotient(x: real, total: real, n: real)
    requires total > 0.0 && n > 0.0
    ensures total / n > 0.0 && x / (total / n) * total == x * n
  {
    var average := total / n;
    assert average > 0.0;
    assert average * n == total;
    assert x / average * average == x;
    assert x / average * (average * n) == x / average * average * n;
  }

  // What a term gains a chunk that holds it `tf` times: of a limit of 2.5 times its weight
  // the share tf / (tf + norm).
  lemma GainIs(s: Stats, c: Chunk, t: string, log: real -> real)
    requires t in c.tf && t in s.df
    ensures c.tf[t] as real + Norm(s, c.tokens) > 0.0
    ensures Gain(s, c, t, log) * (c.tf[t] as real + Norm(s, c.tokens)) == 2.5 * Idf(s, t, log) * c.tf[t] as real
  {
    hide Norm, Idf;
    NormIsPositive(s, c.tokens);
    var share := c.tf[t] as real + Norm(s, c.tokens);
    Cancels(Idf(s, t, log) * (c.tf[t] as real * (BM25_K1 + 1.0)), share);
  }

  lemma Cancels(x: real, y: real)
    requires y != 0.0
    ensures x / y * y == x
  {
  }

  // A term that a chunk of average length holds once gains it just the term's weight.
  lemma OnceInAnAverageChunk(s: Stats, c: Chunk, t: string, log: real -> real)
    requires s.n > 0 && c.tokens * s.n == s.total > 0
    requires c.tf[t] == 1 && t in s.df
    ensures Gain(s, c, t, log) == Idf(s, t, log)
  {
    hide Norm, Idf, Gain;
    AverageNorm(s, c.tokens);
    GainIs(s, c, t, log);
  }

  lemma AverageNorm(s: Stats, tokens: nat)
    requires s.n > 0 && tokens * s.n == s.total > 0
    ensures Norm(s, tokens) == 1.5
  {
    hide Norm;
    NormIs(s, tokens);
    Product(tokens, s.n);
    SolveNorm(Norm(s, tokens), s.total as real, tokens as real * s.n as real);
  }

  lemma Product(a: nat, b: nat)
    ensures (a * b) as real == a as real * b as real
  {
  }

  lemma SolveNorm(norm: real, total: real, product: real)
    requires total > 0.0 && product == total && norm * total == 0.375 * total + 1.125 * product
    ensures norm == 1.5
  {
    SameFactor(norm, 1.5, total);
  }

  lemma SameFactor(x: real, y: real, z: real)
    requires z > 0.0 && x * z == y * z
    ensures x == y
  {
    assert (x - y) * z == 0.0;
  }

  // One more occurrence gains more, and one more token of the same chunk less.
  lemma MoreOccurrencesGainMore(s: Stats, c: Chunk, d: Chunk, t: string, log: real -> real)
    requires IsLog(log) && s.df[t] <= s.n && t in s.df && t in c.tf
    requires d.tokens == c.tokens && d.tf[t] > c.tf[t]
    ensures Gain(s, d, t, log) > Gain(s, c, t, log)
  {
    hide Norm, Idf, Gain, IsLog;
    NormIsPositive(s, c.tokens);
    IdfIsPositive(s, t, log);
    GainIs(s, c, t, log);
    GainIs(s, d, t, log);
    Saturates(Gain(s, c, t, log), Gain(s, d, t, log), 2.5 * Idf(s, t, log), c.tf[t] as real, d.tf[t] as real,
              Norm(s, c.tokens));
  }

  lemma Saturates(gain: real, more: real, limit: real, tf: real, tf': real, norm: real)
    requires limit > 0.0 && 0.0 < tf < tf' && norm > 0.0
    requires gain * (tf + norm) == limit * tf && more * (tf' + norm) == limit * tf'
    ensures more > gain
  {
    var x, y := tf + norm, tf' + norm;
    calc {
      (more - gain) * (x * y);
      more * y * x - gain * x * y;
      limit * tf' * x - limit * tf * y;
      limit * (tf' * x - tf * y);
      { assert tf' * x - tf * y == norm * (tf' - tf); }
      limit * (norm * (tf' - tf));
    }
    assert norm * (tf' - tf) > 0.0 && x * y > 0.0;
    PositiveFactor(more - gain, x * y);
  }

  lemma PositiveFactor(x: real, z: real)
    requires z > 0.0 && x * z > 0.0
    ensures x > 0.0
  {
  }

  lemma Scale(x: real, y: real, z: real)
    requires x <= y && z > 0.0
    ensures x * z <= y * z
  {
  }

  lemma LongerChunksGainLess(s: Stats, c: Chunk, d: Chunk, t: string, log: real -> real)
    requires IsLog(log) && s.df[t] <= s.n && t in s.df && t in c.tf && s.n > 0 && s.total > 0
    requires d.tokens > c.tokens && d.tf[t] == c.tf[t]
    ensures Gain(s, d, t, log) < Gain(s, c, t, log)
  {
    hide Norm, Idf, Gain, IsLog;
    NormIsPositive(s, c.tokens);
    NormIsPositive(s, d.tokens);
    IdfIsPositive(s, t, log);
    GainIs(s, c, t, log);
    GainIs(s, d, t, log);
    NormGrows(s, c.tokens, d.tokens);
    Diluted(Gain(s, c, t, log), Gain(s, d, t, log), 2.5 * Idf(s, t, log) * c.tf[t] as real,
            c.tf[t] as real + Norm(s, c.tokens), c.tf[t] as real + Norm(s, d.tokens));
  }

  lemma NormGrows(s: Stats, tokens: nat, more: nat)
    requires s.n > 0 && s.total > 0 && tokens < more
    ensures Norm(s, tokens) < Norm(s, more)
  {
    hide Norm;
    NormIs(s, tokens);
    NormIs(s, more);
    var n, total := s.n as real, s.total as real;
    assert tokens as real * n < more as real * n by {
      assert more as real * n - tokens as real * n == (more as real - tokens as real) * n > 0.0;
    }
    if Norm(s, tokens) >= Norm(s, more) {
      Scale(Norm(s, more), Norm(s, tokens), total);
    }
  }

  lemma Diluted(gain: real, less: real, product: real, x: real, y: real)
    requires product > 0.0 && 0.0 < x < y && gain * x == product && less * y == product
    ensures less < gain
  {
    calc {
      (gain - less) * (x * y);
      gain * x * y - less * y * x;
      product * (y - x);
    }
    assert product * (y - x) > 0.0 && x * y > 0.0;
    PositiveFactor(gain - less, x * y);
  }
}
