/**
 The index of a reference tree (tools/search.py): built once from the files, searched for
 the best chunks. Its hits depend on the tree and the terms asked for, and on nothing else.
 */
module Reference {
  import opened Options
  import opened Bytes
  import opened Spans
  import opened Search
  import opened SearchOrder
  import Csv
  import Paragraphs
  import Workspace

  // What the suffix of a file says of it.
  datatype Kind = Prose | Table | NotIndexed

  // A file that cannot be read has no data.
  datatype File = File(path: string, kind: Kind, data: Option<Data>)

  // --- chunks of a file -----------------------------------------------------------------

  ghost predicate AreSpansOf(d: Data, kind: Kind, spans: seq<Span>) {
    Ordered(spans, 0, |d|) && if kind == Table then Csv.AreCsvSpans(d, spans) else Paragraphs.AreProseSpans(d, spans)
  }

  // Chunking is a function of the bytes: a file has one list of spans.
  lemma SpansAreDetermined(d: Data, kind: Kind, a: seq<Span>, b: seq<Span>)
    requires AreSpansOf(d, kind, a) && AreSpansOf(d, kind, b)
    ensures a == b
  {
    hide Ordered, Csv.AreCsvSpans, Paragraphs.AreProseSpans;
    if kind == Table {
      Csv.CsvSpansAreUnique(d, a, b);
    } else {
      Paragraphs.ProseSpansAreUnique(d, a, b);
    }
  }

  // One chunk for a span with at least one token.
  function ChunkOf(path: string, d: Data, s: Span, decode: Data -> string,
                   tokenize: string -> seq<string>): seq<Chunk> {
    var text := decode(Workspace.Slice(d, s.offset, Some(s.End())));
    var tokens := tokenize(text);
    if tokens == [] then [] else [Chunk(path, s.offset, s.length, text, multiset(tokens), |tokens|)]
  }

  function ChunksOf(path: string, d: Data, spans: seq<Span>, decode: Data -> string,
                    tokenize: string -> seq<string>): seq<Chunk> {
    if spans == [] then []
    else
      var n := |spans| - 1;
      ChunksOf(path, d, spans[..n], decode, tokenize) + ChunkOf(path, d, spans[n], decode, tokenize)
  }

  // `part` is what one file adds to the index.
  ghost predicate IsPartOf(file: File, part: seq<Chunk>, decode: Data -> string, tokenize: string -> seq<string>) {
    if file.kind == NotIndexed || file.data.None? then part == []
    else
      exists spans :: AreSpansOf(file.data.value, file.kind, spans)
        && part == ChunksOf(file.path, file.data.value, spans, decode, tokenize)
  }

  lemma PartIsDetermined(file: File, a: seq<Chunk>, b: seq<Chunk>, decode: Data -> string,
                         tokenize: string -> seq<string>)
    requires IsPartOf(file, a, decode, tokenize) && IsPartOf(file, b, decode, tokenize)
    ensures a == b
  {
    hide AreSpansOf, ChunksOf;
    if file.kind != NotIndexed && file.data.Some? {
      var d := file.data.value;
      var spans :| AreSpansOf(d, file.kind, spans) && a == ChunksOf(file.path, d, spans, decode, tokenize);
      var spans' :| AreSpansOf(d, file.kind, spans') && b == ChunksOf(file.path, d, spans', decode, tokenize);
      SpansAreDetermined(d, file.kind, spans, spans');
    }
  }

  // --- the whole tree -------------------------------------------------------------------

  function Flatten(parts: seq<seq<Chunk>>): seq<Chunk> {
    if parts == [] then [] else Flatten(parts[..|parts| - 1]) + parts[|parts| - 1]
  }

  ghost predicate AreParts(files: seq<File>, parts: seq<seq<Chunk>>, decode: Data -> string,
                           tokenize: string -> seq<string>) {
    |parts| == |files| && forall i :: 0 <= i < |files| ==> IsPartOf(files[i], parts[i], decode, tokenize)
  }

  method SpansOf(d: Data, kind: Kind) returns (spans: seq<Span>)
    ensures AreSpansOf(d, kind, spans)
  {
    hide Ordered, Csv.AreCsvSpans, Paragraphs.AreProseSpans;
    if kind == Table {
      spans := Csv.CsvSpans(d);
      Csv.CsvSpansAreOrdered(d, spans);
    } else {
      spans := Paragraphs.ParagraphSpans(d);
    }
  }

  // The chunks of an index over these files.
  ghost predicate AreIndexed(files: seq<File>, chunks: seq<Chunk>, decode: Data -> string,
                             tokenize: string -> seq<string>) {
    exists parts :: AreParts(files, parts, decode, tokenize) && chunks == Flatten(parts)
  }

  method BuildChunks(files: seq<File>, decode: Data -> string, tokenize: string -> seq<string>)
    returns (chunks: seq<Chunk>)
    ensures AreIndexed(files, chunks, decode, tokenize)
  {
    hide AreSpansOf, ChunkOf;
    chunks := [];
    ghost var parts: seq<seq<Chunk>> := [];
    for i := 0 to |files|
      invariant AreParts(files[..i], parts, decode, tokenize) && chunks == Flatten(parts)
    {
      var file := files[i];
      ghost var part := [];
      if file.kind != NotIndexed && file.data.Some? {
        var d := file.data.value;
        ghost var before := chunks;
        var spans := SpansOf(d, file.kind);
        for k := 0 to |spans|
          invariant chunks == before + ChunksOf(file.path, d, spans[..k], decode, tokenize)
        {
          ChunksStep(file.path, d, spans, k, decode, tokenize);
          chunks := chunks + ChunkOf(file.path, d, spans[k], decode, tokenize);
        }
        assert spans[..|spans|] == spans;
        part := ChunksOf(file.path, d, spans, decode, tokenize);
      }
      PartIsAdded(files, i, parts, part, decode, tokenize);
      parts := parts + [part];
    }
    assert files[..|files|] == files;
  }

  lemma ChunksStep(path: string, d: Data, spans: seq<Span>, k: nat, decode: Data -> string,
                   tokenize: string -> seq<string>)
    requires k < |spans|
    ensures ChunksOf(path, d, spans[..k + 1], decode, tokenize)
         == ChunksOf(path, d, spans[..k], decode, tokenize) + ChunkOf(path, d, spans[k], decode, tokenize)
  {
    hide ChunkOf;
    assert spans[..k + 1][..k] == spans[..k];
  }

  lemma PartIsAdded(files: seq<File>, i: nat, parts: seq<seq<Chunk>>, part: seq<Chunk>,
                    decode: Data -> string, tokenize: string -> seq<string>)
    requires i < |files| && AreParts(files[..i], parts, decode, tokenize) && IsPartOf(files[i], part, decode, tokenize)
    ensures AreParts(files[..i + 1], parts + [part], decode, tokenize)
    ensures Flatten(parts + [part]) == Flatten(parts) + part
  {
    hide IsPartOf;
    assert (parts + [part])[..|parts|] == parts;
  }

  // --- every chunk can be read back -------------------------------------------------------

  lemma {:induction false} ChunkIsOfSpan(path: string, d: Data, spans: seq<Span>, decode: Data -> string,
                                         tokenize: string -> seq<string>, c: Chunk) returns (k: nat)
    requires c in ChunksOf(path, d, spans, decode, tokenize)
    ensures k < |spans| && c in ChunkOf(path, d, spans[k], decode, tokenize)
  {
    hide ChunkOf;
    var n := |spans| - 1;
    if c in ChunkOf(path, d, spans[n], decode, tokenize) {
      k := n;
    } else {
      k := ChunkIsOfSpan(path, d, spans[..n], decode, tokenize, c);
    }
  }

  lemma {:induction false} ChunkIsOfPart(parts: seq<seq<Chunk>>, c: Chunk) returns (i: nat)
    requires c in Flatten(parts)
    ensures i < |parts| && c in parts[i]
  {
    var n := |parts| - 1;
    if c in parts[n] {
      i := n;
    } else {
      i := ChunkIsOfPart(parts[..n], c);
    }
  }

  lemma SpanInBounds(d: Data, kind: Kind, spans: seq<Span>, k: nat)
    requires AreSpansOf(d, kind, spans) && k < |spans|
    ensures spans[k].length > 0 && spans[k].End() <= |d|
  {
    hide Csv.AreCsvSpans, Paragraphs.AreProseSpans;
  }

  // The file a chunk is of, and where in it the chunk is.
  lemma ChunkIsOfFile(files: seq<File>, parts: seq<seq<Chunk>>, decode: Data -> string, tokenize: string -> seq<string>,
                      c: Chunk) returns (i: nat)
    requires AreParts(files, parts, decode, tokenize) && c in Flatten(parts)
    ensures i < |files| && files[i].data.Some? && files[i].path == c.path && c in parts[i]
    ensures c.length > 0 && c.offset + c.length <= |files[i].data.value|
    ensures c.text == decode(Workspace.Slice(files[i].data.value, c.offset, Some(c.offset + c.length)))
  {
    hide Flatten, AreSpansOf, ChunksOf;
    i := ChunkIsOfPart(parts, c);
    var file := files[i];
    assert IsPartOf(file, parts[i], decode, tokenize);
    var spans :| AreSpansOf(file.data.value, file.kind, spans)
      && parts[i] == ChunksOf(file.path, file.data.value, spans, decode, tokenize);
    var k := ChunkIsOfSpan(file.path, file.data.value, spans, decode, tokenize, c);
    SpanInBounds(file.data.value, file.kind, spans, k);
  }

  // Reading a chunk's file at its offset and length gives the text that was indexed.
  lemma ChunkIsReadBack(files: seq<File>, parts: seq<seq<Chunk>>, decode: Data -> string,
                        tokenize: string -> seq<string>, c: Chunk) returns (i: nat)
    requires AreParts(files, parts, decode, tokenize) && c in Flatten(parts)
    ensures i < |files| && files[i].path == c.path
    ensures Workspace.WorkspaceRead(files[i].data, Some(c.offset), Some(c.length), decode) == Workspace.Text(c.text)
  {
    hide AreParts, Flatten;
    i := ChunkIsOfFile(files, parts, decode, tokenize, c);
  }

  // A span is indexed exactly when it has a token, and its chunk says what it holds.
  lemma {:induction false} SpanIsIndexedExactly(path: string, d: Data, spans: seq<Span>, decode: Data -> string,
                                                tokenize: string -> seq<string>, k: nat)
    requires Ordered(spans, 0, |d|) && k < |spans|
    ensures var tokens := tokenize(decode(d[spans[k].offset..spans[k].End()]));
            var part := ChunksOf(path, d, spans, decode, tokenize);
            && (tokens == [] ==> forall c :: c in part ==> c.offset != spans[k].offset)
            && (tokens != [] ==>
                  Chunk(path, spans[k].offset, spans[k].length, decode(d[spans[k].offset..spans[k].End()]),
                        multiset(tokens), |tokens|) in part)
    decreases |spans|
  {
    hide ChunkOf;
    var n := |spans| - 1;
    IndexedExactly(path, d, spans[n], decode, tokenize);
    AtMostOne(path, d, spans[n], decode, tokenize);
    if k < n {
      SpanIsIndexedExactly(path, d, spans[..n], decode, tokenize, k);
    } else {
      forall c | c in ChunksOf(path, d, spans[..n], decode, tokenize)
        ensures c.offset != spans[n].offset
      {
        var l := ChunkIsOfSpan(path, d, spans[..n], decode, tokenize, c);
        AtMostOne(path, d, spans[l], decode, tokenize);
      }
    }
  }

  lemma IndexedExactly(path: string, d: Data, s: Span, decode: Data -> string, tokenize: string -> seq<string>)
    requires s.End() <= |d| && s.length > 0
    ensures var text := decode(d[s.offset..s.End()]);
            var tokens := tokenize(text);
            ChunkOf(path, d, s, decode, tokenize)
            == if tokens == [] then [] else [Chunk(path, s.offset, s.length, text, multiset(tokens), |tokens|)]
  {
    assert Workspace.Slice(d, s.offset, Some(s.End())) == d[s.offset..s.End()];
  }

  // --- no two chunks are at one place -----------------------------------------------------

  ghost predicate DistinctPaths(files: seq<File>) {
    forall i, j :: 0 <= i < j < |files| ==> files[i].path != files[j].path
  }

  lemma {:induction false} PartHasDistinctPlaces(path: string, d: Data, spans: seq<Span>, hi: nat,
                                                 decode: Data -> string, tokenize: string -> seq<string>)
    requires Ordered(spans, 0, hi)
    ensures DistinctPlaces(ChunksOf(path, d, spans, decode, tokenize))
  {
    if spans != [] {
      hide ChunkOf;
      var n := |spans| - 1;
      PartHasDistinctPlaces(path, d, spans[..n], hi, decode, tokenize);
      var before, last := ChunksOf(path, d, spans[..n], decode, tokenize), ChunkOf(path, d, spans[n], decode, tokenize);
      AtMostOne(path, d, spans[n], decode, tokenize);
      forall c | c in before
        ensures c.offset < spans[n].offset
      {
        var k := ChunkIsOfSpan(path, d, spans[..n], decode, tokenize, c);
        AtMostOne(path, d, spans[k], decode, tokenize);
      }
      assert forall i :: 0 <= i < |before| ==> before[i] in before;
    }
  }

  lemma AtMostOne(path: string, d: Data, s: Span, decode: Data -> string, tokenize: string -> seq<string>)
    ensures var one := ChunkOf(path, d, s, decode, tokenize);
            |one| <= 1 && forall c :: c in one ==> c.path == path && c.offset == s.offset
  {
  }

  lemma {:induction false} PlacesAreDistinct(files: seq<File>, parts: seq<seq<Chunk>>, decode: Data -> string,
                                             tokenize: string -> seq<string>)
    requires DistinctPaths(files) && AreParts(files, parts, decode, tokenize)
    ensures DistinctPlaces(Flatten(parts))
    decreases |files|
  {
    hide IsPartOf;
    if parts != [] {
      var n := |parts| - 1;
      var before, last := Flatten(parts[..n]), parts[n];
      PlacesAreDistinct(files[..n], parts[..n], decode, tokenize);
      OnePart(files[n], last, decode, tokenize);
      forall c | c in before
        ensures c.path != files[n].path
      {
        var i := ChunkIsOfFile(files[..n], parts[..n], decode, tokenize, c);
      }
      ApartFrom(before, last, files[n].path);
    }
  }

  lemma OnePart(file: File, part: seq<Chunk>, decode: Data -> string, tokenize: string -> seq<string>)
    requires IsPartOf(file, part, decode, tokenize)
    ensures DistinctPlaces(part)
    ensures forall c :: c in part ==> c.path == file.path
  {
    hide Csv.AreCsvSpans, Paragraphs.AreProseSpans, Ordered, DistinctPlaces, ChunksOf, ChunkOf;
    if part != [] {
      var d := file.data.value;
      var spans :| AreSpansOf(d, file.kind, spans) && part == ChunksOf(file.path, d, spans, decode, tokenize);
      PartHasDistinctPlaces(file.path, d, spans, |d|, decode, tokenize);
      forall c | c in part
        ensures c.path == file.path
      {
        var k := ChunkIsOfSpan(file.path, d, spans, decode, tokenize, c);
        AtMostOne(file.path, d, spans[k], decode, tokenize);
      }
    } else {
      NoPlaces();
    }
  }

  lemma NoPlaces()
    ensures DistinctPlaces([])
  {
  }

  lemma ApartFrom(before: seq<Chunk>, last: seq<Chunk>, path: string)
    requires DistinctPlaces(before) && DistinctPlaces(last)
    requires forall c :: c in before ==> c.path != path
    requires forall c :: c in last ==> c.path == path
    ensures DistinctPlaces(before + last)
  {
    var all := before + last;
    forall i, j | 0 <= i < j < |all|
      ensures all[i].path != all[j].path || all[i].offset != all[j].offset
    {
      if i < |before| <= j {
        assert before[i] in before && last[j - |before|] in last;
      } else if j < |before| {
        assert all[i] == before[i] && all[j] == before[j];
      } else {
        assert all[i] == last[i - |before|] && all[j] == last[j - |before|];
      }
    }
  }

  // --- visiting the files in another order ------------------------------------------------

  lemma {:induction false} FlattenConcat(a: seq<seq<Chunk>>, b: seq<seq<Chunk>>)
    ensures Flatten(a + b) == Flatten(a) + Flatten(b)
  {
    if b == [] {
      assert a + b == a;
    } else {
      var n := |b| - 1;
      assert (a + b)[..|a + b| - 1] == a + b[..n];
      FlattenConcat(a, b[..n]);
    }
  }

  lemma FlattenOne(part: seq<Chunk>)
    ensures Flatten([part]) == part
  {
    assert [part][..0] == [];
  }

  lemma FlattenWithout(parts: seq<seq<Chunk>>, i: nat)
    requires i < |parts|
    ensures multiset(Flatten(parts)) == multiset(Flatten(Without(parts, i))) + multiset(parts[i])
  {
    hide Flatten;
    assert parts == (parts[..i] + [parts[i]]) + parts[i + 1..];
    FlattenConcat(parts[..i] + [parts[i]], parts[i + 1..]);
    FlattenConcat(parts[..i], [parts[i]]);
    FlattenConcat(parts[..i], parts[i + 1..]);
    FlattenOne(parts[i]);
  }

  lemma PartsWithout(files: seq<File>, parts: seq<seq<Chunk>>, i: nat, decode: Data -> string,
                     tokenize: string -> seq<string>)
    requires AreParts(files, parts, decode, tokenize) && i < |files|
    ensures AreParts(Without(files, i), Without(parts, i), decode, tokenize)
    ensures IsPartOf(files[i], parts[i], decode, tokenize)
  {
    hide IsPartOf;
    forall k | 0 <= k < |files| - 1
      ensures IsPartOf(Without(files, i)[k], Without(parts, i)[k], decode, tokenize)
    {
      var l := if k < i then k else k + 1;
      assert Without(files, i)[k] == files[l] && Without(parts, i)[k] == parts[l];
    }
  }

  // The same files, visited in any order, give the same chunks.
  lemma {:induction false} BuildIsOrderIndependent(a: seq<File>, b: seq<File>, pa: seq<seq<Chunk>>, pb: seq<seq<Chunk>>,
                                                   decode: Data -> string, tokenize: string -> seq<string>)
    requires multiset(a) == multiset(b)
    requires AreParts(a, pa, decode, tokenize) && AreParts(b, pb, decode, tokenize)
    ensures multiset(Flatten(pa)) == multiset(Flatten(pb))
    decreases |a|
  {
    hide Flatten, AreParts, IsPartOf;
    SameSize(a, b);
    AsManyParts(a, pa, decode, tokenize);
    AsManyParts(b, pb, decode, tokenize);
    if a == [] {
      assert pa == [] && pb == [];
    } else {
      var n := |a| - 1;
      var i := Removed(a, b);
      assert Without(a, n) == a[..n];
      PartsWithout(a, pa, n, decode, tokenize);
      PartsWithout(b, pb, i, decode, tokenize);
      BuildIsOrderIndependent(Without(a, n), Without(b, i), Without(pa, n), Without(pb, i), decode, tokenize);
      PartIsDetermined(a[n], pa[n], pb[i], decode, tokenize);
      FlattenWithout(pa, n);
      FlattenWithout(pb, i);
    }
  }

  lemma AsManyParts(files: seq<File>, parts: seq<seq<Chunk>>, decode: Data -> string, tokenize: string -> seq<string>)
    requires AreParts(files, parts, decode, tokenize)
    ensures |files| == |parts|
  {
  }

  // The hits of a search: the first `k` of a ranking.
  ghost predicate AreHits(chunks: seq<Chunk>, query: seq<string>, k: nat, log: real -> real, hits: seq<Hit>) {
    exists ranked :: IsRanking(chunks, TermsOf(query), log, ranked) && hits == HitsOf(TopOf(ranked, k))
  }

  // The hits are a function of the tree and of the set of terms: however the files were
  // visited, and however the query orders and repeats its terms.
  lemma SearchIsAFunctionOfTheTree(a: seq<File>, b: seq<File>, chunks: seq<Chunk>, chunks': seq<Chunk>,
                                   decode: Data -> string, tokenize: string -> seq<string>,
                                   query: seq<string>, query': seq<string>, k: nat, log: real -> real,
                                   hits: seq<Hit>, hits': seq<Hit>)
    requires multiset(a) == multiset(b) && DistinctPaths(a) && TermsOf(query) == TermsOf(query')
    requires AreIndexed(a, chunks, decode, tokenize) && AreIndexed(b, chunks', decode, tokenize)
    requires AreHits(chunks, query, k, log, hits) && AreHits(chunks', query', k, log, hits')
    ensures hits == hits'
  {
    hide Flatten, IsRanking, HitsOf, TopOf, AreParts;
    var pa :| AreParts(a, pa, decode, tokenize) && chunks == Flatten(pa);
    var pb :| AreParts(b, pb, decode, tokenize) && chunks' == Flatten(pb);
    var ranked :| IsRanking(chunks, TermsOf(query), log, ranked) && hits == HitsOf(TopOf(ranked, k));
    var ranked' :| IsRanking(chunks', TermsOf(query'), log, ranked') && hits' == HitsOf(TopOf(ranked', k));
    BuildIsOrderIndependent(a, b, pa, pb, decode, tokenize);
    PlacesAreDistinct(a, pa, decode, tokenize);
    RankingIsDetermined(chunks, chunks', query, query', log, ranked, ranked');
  }

  // Asking for one more hit keeps those there were, in their places.
  lemma MoreHitsKeepTheFirst(files: seq<File>, chunks: seq<Chunk>, decode: Data -> string,
                             tokenize: string -> seq<string>,
                             query: seq<string>, k: nat, log: real -> real, hits: seq<Hit>, more: seq<Hit>)
    requires DistinctPaths(files) && AreIndexed(files, chunks, decode, tokenize)
    requires AreHits(chunks, query, k, log, hits) && AreHits(chunks, query, k + 1, log, more)
    ensures hits <= more && |more| <= k + 1
  {
    hide Flatten, IsRanking, HitsOf, TopOf, AreParts;
    var parts :| AreParts(files, parts, decode, tokenize) && chunks == Flatten(parts);
    var ranked :| IsRanking(chunks, TermsOf(query), log, ranked) && hits == HitsOf(TopOf(ranked, k));
    var ranked' :| IsRanking(chunks, TermsOf(query), log, ranked') && more == HitsOf(TopOf(ranked', k + 1));
    PlacesAreDistinct(files, parts, decode, tokenize);
    RankingIsDetermined(chunks, chunks, query, query, log, ranked, ranked');
    TopKIsAPrefix(ranked, k);
    TopKIsAPrefix(ranked, k + 1);
  }

  // The hits are of the best chunks, best first: no chunk that is left out scores higher
  // than one that is among them.  With the same score the hit of the smaller path comes
  // first, and of one file that of the smaller offset.
  lemma HitsAreTheBest(chunks: seq<Chunk>, query: seq<string>, k: nat, log: real -> real, hits: seq<Hit>)
    returns (best: seq<Chunk>)
    requires AreHits(chunks, query, k, log, hits)
    ensures |best| == |hits| && forall i :: 0 <= i < |hits| ==> IsHitOf(hits[i], best[i])
    ensures AreBest(chunks, TermsOf(query), k, log, best)
    ensures var s := StatsOf(chunks);
            DistinctPlaces(chunks) ==>
              forall i, j :: 0 <= i < j < |best| ==>
                               Score(s, TermsOf(query), best[i], log) == Score(s, TermsOf(query), best[j], log) ==>
                                 || PathLess(hits[i].path, hits[j].path)
                                 || (hits[i].path == hits[j].path && hits[i].offset < hits[j].offset)
  {
    hide StatsOf, Score, IsRanking, HitsOf, PathLess, DistinctPlaces, AreBest;
    var ranked :| IsRanking(chunks, TermsOf(query), log, ranked) && hits == HitsOf(TopOf(ranked, k));
    best := SearchOrder.ChunksOf(TopOf(ranked, k));
    HitsAreOfRows(TopOf(ranked, k));
    TopIsBest(chunks, TermsOf(query), k, log, ranked);
    if DistinctPlaces(chunks) {
      forall i, j | 0 <= i < j < |best|
                    && Score(StatsOf(chunks), TermsOf(query), best[i], log)
                       == Score(StatsOf(chunks), TermsOf(query), best[j], log)
        ensures || PathLess(hits[i].path, hits[j].path)
                || (hits[i].path == hits[j].path && hits[i].offset < hits[j].offset)
      {
        RankedRow(chunks, TermsOf(query), log, ranked, i);
        RankedRow(chunks, TermsOf(query), log, ranked, j);
        RankingIsInOrder(chunks, TermsOf(query), log, ranked, i, j);
        RowIsOfItsChunk(chunks, TermsOf(query), log, ranked, i);
        RowIsOfItsChunk(chunks, TermsOf(query), log, ranked, j);
      }
    }
  }

  lemma RowIsOfItsChunk(chunks: seq<Chunk>, terms: set<string>, log: real -> real, ranked: seq<Row>, i: nat)
    requires IsRanking(chunks, terms, log, ranked) && i < |ranked|
    ensures ranked[i].path == ranked[i].chunk.path && ranked[i].offset == ranked[i].chunk.offset
  {
    hide StatsOf, RowsOf, Score, IsSorted;
    assert ranked[i] in multiset(ranked);
    RowsAreOfChunks(StatsOf(chunks), terms, log, chunks, ranked[i]);
  }

  lemma {:induction false} HitIsOfRow(rows: seq<Row>, h: Hit) returns (r: Row)
    requires h in HitsOf(rows)
    ensures r in rows && h.path == r.chunk.path && h.offset == r.chunk.offset && h.length == r.chunk.length
    ensures h.text == Snippet(r.chunk.text)
  {
    var n := |rows| - 1;
    if h in HitsOf(rows[..n]) {
      r := HitIsOfRow(rows[..n], h);
    } else {
      r := rows[n];
    }
  }

  // Every hit can be read back: its offset and length, read in its file, give the passage
  // whose beginning it quotes.
  lemma HitIsReadBack(files: seq<File>, chunks: seq<Chunk>, decode: Data -> string, tokenize: string -> seq<string>,
                      query: seq<string>, k: nat, log: real -> real, hits: seq<Hit>, h: Hit)
    returns (i: nat, text: string)
    requires AreIndexed(files, chunks, decode, tokenize) && AreHits(chunks, query, k, log, hits) && h in hits
    ensures i < |files| && files[i].path == h.path && h.text == Snippet(text)
    ensures Workspace.WorkspaceRead(files[i].data, Some(h.offset), Some(h.length), decode) == Workspace.Text(text)
  {
    hide AreParts, Flatten, HitsOf, RowsOf, StatsOf, IsSorted, Score, Snippet;
    var parts :| AreParts(files, parts, decode, tokenize) && chunks == Flatten(parts);
    var ranked :| IsRanking(chunks, TermsOf(query), log, ranked) && hits == HitsOf(TopOf(ranked, k));
    var r := HitIsOfRow(TopOf(ranked, k), h);
    assert r in ranked;
    assert r in multiset(ranked);
    RowsAreOfChunks(StatsOf(chunks), TermsOf(query), log, chunks, r);
    i := ChunkIsReadBack(files, parts, decode, tokenize, r.chunk);
    text := r.chunk.text;
  }

  // --- the index ----------------------------------------------------------------------------

  lemma NoGain(s: Stats, terms: set<string>, kept: set<string>, c: Chunk, log: real -> real)
    requires kept <= terms && forall t :: t in terms - kept ==> Gain(s, c, t, log) == 0.0
    ensures Score(s, terms, c, log) == Score(s, kept, c, log)
    decreases |terms|
  {
    hide Gain, Score;
    if terms - kept == {} {
      assert terms == kept;
    } else {
      var t :| t in terms - kept;
      ScoreInAnyOrder(s, terms, c, log, t);
      NoGain(s, terms - {t}, kept, c, log);
    }
  }

  class ReferenceIndex {
    var chunks: seq<Chunk>
    var df: multiset<string>
    var averageTokens: real

    ghost predicate Valid()
      reads this
    {
      df == StatsOf(chunks).df && averageTokens == Average(StatsOf(chunks))
    }

    constructor (chunks: seq<Chunk>)
      ensures Valid() && this.chunks == chunks
    {
      var counts: multiset<string>, total: nat := multiset{}, 0;
      for i := 0 to |chunks|
        invariant StatsOf(chunks[..i]) == Stats(i, counts, total)
      {
        assert chunks[..i + 1] == chunks[..i] + [chunks[i]];
        StatsLast(chunks[..i], chunks[i]);
        counts := counts + Keys(chunks[i]);
        total := total + chunks[i].tokens;
      }
      assert chunks[..|chunks|] == chunks;
      this.chunks := chunks;
      df := counts;
      averageTokens := if chunks == [] then 0.0 else total as real / |chunks| as real;
    }

    // The weight of each query term that occurs in some chunk.
    method Weights(query: seq<string>, log: real -> real) returns (idf: map<string, real>)
      requires Valid()
      ensures forall t :: t in idf <==> t in TermsOf(query) && df[t] > 0
      ensures forall t :: t in idf ==> idf[t] == Idf(StatsOf(chunks), t, log)
    {
      hide StatsOf;
      idf := map[];
      var rest := set t | t in query;
      while rest != {}
        invariant rest <= TermsOf(query)
        invariant forall t :: t in idf <==> t in TermsOf(query) - rest && df[t] > 0
        invariant forall t :: t in idf ==> idf[t] == Idf(StatsOf(chunks), t, log)
        decreases |rest|
      {
        var t :| t in rest;
        if df[t] > 0 {
          DfCountsChunks(chunks, t);
          idf := idf[t := log(1.0 + ((|chunks| - df[t]) as real + 0.5) / (df[t] as real + 0.5))];
        }
        rest := rest - {t};
      }
    }

    method ScoreChunk(idf: map<string, real>, c: Chunk, log: real -> real) returns (score: real)
      requires Valid()
      requires forall t :: t in idf ==> df[t] > 0 && idf[t] == Idf(StatsOf(chunks), t, log)
      ensures score == Score(StatsOf(chunks), idf.Keys, c, log)
    {
      hide Score, StatsOf, Relative, Average, Idf;
      score := 0.0;
      ghost var s := StatsOf(chunks);
      var norm := BM25_K1 * (1.0 - BM25_B + BM25_B * Relative(averageTokens, c.tokens));
      assert norm == Norm(s, c.tokens);
      NormIsPositive(s, c.tokens);
      var left := idf.Keys;
      while left != {}
        invariant left <= idf.Keys
        invariant score + Score(s, left, c, log) == Score(s, idf.Keys, c, log)
        decreases |left|
      {
        var t :| t in left;
        ScoreInAnyOrder(s, left, c, log, t);
        var tf := c.tf[t];
        if tf > 0 {
          score := score + idf[t] * (tf as real * (BM25_K1 + 1.0)) / (tf as real + norm);
        }
        left := left - {t};
      }
      NoScore(s, c, log);
    }

    // The best `k` chunks for the query, as hits.
    method Search(query: seq<string>, k: nat, log: real -> real) returns (hits: seq<Hit>)
      requires Valid()
      ensures AreHits(chunks, query, k, log, hits)
    {
      hide Score, StatsOf, RowsOf, IsSorted, HitsOf, Gain, Average, Idf;
      ghost var s, terms := StatsOf(chunks), TermsOf(query);
      var idf := Weights(query, log);
      var scored: seq<Row> := [];
      if query != [] && chunks != [] && idf != map[] {
        NothingScores(s, terms, idf.Keys, log, chunks[..0]);
        for i := 0 to |chunks|
          invariant scored == RowsOf(s, terms, log, chunks[..i])
        {
          var c := chunks[i];
          var score := ScoreChunk(idf, c, log);
          TermsWithoutChunks(s, terms, idf.Keys, c, log);
          RowsStep(s, terms, log, chunks, i);
          if score > 0.0 {
            scored := scored + [Row(score, c.path, c.offset, c)];
          }
        }
        assert chunks[..|chunks|] == chunks;
      } else {
        NothingScores(s, terms, idf.Keys, log, chunks);
      }
      var rows := SortRows(scored);
      hits := HitsOf(TopOf(rows, k));
      assert IsRanking(chunks, TermsOf(query), log, rows);
    }
  }

  lemma NoScore(s: Stats, c: Chunk, log: real -> real)
    ensures Score(s, {}, c, log) == 0.0
  {
  }

  lemma TermsWithoutChunks(s: Stats, terms: set<string>, kept: set<string>, c: Chunk, log: real -> real)
    requires forall t :: t in kept <==> t in terms && s.df[t] > 0
    ensures Score(s, terms, c, log) == Score(s, kept, c, log)
  {
    hide Score, Norm, Idf;
    NoGain(s, terms, kept, c, log);
  }

  lemma RowsStep(s: Stats, terms: set<string>, log: real -> real, chunks: seq<Chunk>, i: nat)
    requires i < |chunks|
    ensures var c := chunks[i];
            var score := Score(s, terms, c, log);
            RowsOf(s, terms, log, chunks[..i + 1])
            == RowsOf(s, terms, log, chunks[..i]) + (if score > 0.0 then [Row(score, c.path, c.offset, c)] else [])
  {
    hide Score;
    assert chunks[..i + 1][..i] == chunks[..i];
  }

  lemma {:induction false} NothingScores(s: Stats, terms: set<string>, kept: set<string>, log: real -> real,
                                         chunks: seq<Chunk>)
    requires forall t :: t in kept <==> t in terms && s.df[t] > 0
    requires terms == {} || chunks == [] || kept == {}
    ensures RowsOf(s, terms, log, chunks) == []
  {
    hide Score;
    if chunks != [] {
      var c := chunks[|chunks| - 1];
      TermsWithoutChunks(s, terms, kept, c, log);
      NoScore(s, c, log);
      assert kept == {};
      NothingScores(s, terms, kept, log, chunks[..|chunks| - 1]);
    }
  }

  // Where a row belongs among sorted rows: after all that are not after it.
  function InsertAt(rows: seq<Row>, r: Row): (k: nat)
    ensures k <= |rows|
  {
    if rows == [] then 0
    else if Before(r, rows[|rows| - 1]) then InsertAt(rows[..|rows| - 1], r)
    else |rows|
  }

  lemma {:induction false} InsertKeepsOrder(rows: seq<Row>, r: Row)
    requires IsSorted(rows)
    ensures var k := InsertAt(rows, r);
            && (forall i :: 0 <= i < k ==> !Before(r, rows[i]))
            && forall i :: k <= i < |rows| ==> !Before(rows[i], r)
  {
    hide Before;
    if rows != [] {
      var n := |rows| - 1;
      if Before(r, rows[n]) {
        BeforeIsTotal(r, rows[n]);
        InsertKeepsOrder(rows[..n], r);
      } else {
        forall i | 0 <= i < n
          ensures !Before(r, rows[i])
        {
          NotBeforeIsTransitive(rows[i], rows[n], r);
        }
      }
    }
  }

  method SortRows(rows: seq<Row>) returns (sorted: seq<Row>)
    ensures IsSorted(sorted) && multiset(sorted) == multiset(rows)
  {
    hide InsertAt, Before;
    sorted := [];
    for i := 0 to |rows|
      invariant IsSorted(sorted) && multiset(sorted) == multiset(rows[..i])
    {
      var k := InsertAt(sorted, rows[i]);
      InsertKeepsOrder(sorted, rows[i]);
      assert rows[..i + 1] == rows[..i] + [rows[i]];
      ghost var before := sorted;
      assert before == before[..k] + before[k..];
      sorted := sorted[..k] + [rows[i]] + sorted[k..];
    }
    assert rows[..|rows|] == rows;
  }
}
