/** Searching the corpus (search.py, persistence/search.py, and the index search of
    qdrant_index.py) as functions of the database and index state they see. */
module Search {
  import opened Results
  import opened Texts
  import opened Domain
  import opened Transactions
  import opened Lifecycle
  import opened LifecycleResults
  import opened Sorting
  import opened Gains
  import opened Ranking

  datatype SearchMode = KeywordMode | VectorMode | HybridMode

  datatype SearchFilters = SearchFilters(documentIds: seq<DocumentId>, mediaTypes: seq<MediaType>)

  datatype Request = Request(query: string, mode: SearchMode, limit: int, filters: SearchFilters)

  datatype SearchableChunk = SearchableChunk(
    id: ChunkId, documentId: DocumentId, text: string, originalFilename: string,
    mediaType: MediaType, locator: SourceLocator)

  datatype Citation = Citation(
    documentId: DocumentId, chunkId: ChunkId, originalFilename: string, excerpt: string,
    sectionPath: seq<string>, pageNumber: Option<nat>)

  datatype SearchResult = SearchResult(
    score: real, keywordRank: Option<nat>, vectorRank: Option<nat>, mediaType: MediaType, citation: Citation)

  datatype SearchExecution = SearchExecution(query: string, mode: SearchMode, results: seq<SearchResult>)

  /** SearchQueryError, for either of its two reasons, and what the embedding provider and the
      vector index raise. */
  datatype SearchError = BlankQuery | NonPositiveLimit | EmbeddingError | VectorIndexError

  /** Configuration, and the functions given from outside: whether a text matches a query, its text
      rank, and the orders of chunk and document identifiers. */
  datatype Engine = Engine(
    matches: (string, string) -> bool, textRank: (string, string) -> real,
    idLeq: (ChunkId, ChunkId) -> bool, documentLeq: (DocumentId, DocumentId) -> bool,
    candidateMultiplier: nat, rrfK: nat)
  {
    ghost predicate Valid() {
      IsOrder(idLeq) && IsOrder(documentLeq) && candidateMultiplier >= 1 && rrfK >= 1
    }
  }

  type Hits = Candidates<ChunkId>
  type Ranked = seq<FusedCandidate<ChunkId>>

  /** An empty filter admits everything. */
  predicate Passes(filters: SearchFilters, d: DocumentId, m: MediaType) {
    && (filters.documentIds == [] || d in filters.documentIds)
    && (filters.mediaTypes == [] || m in filters.mediaTypes)
  }

  /** A chunk a search may show: its document is READY. */
  predicate IsVisible(rows: Rows, c: ChunkId) {
    c in rows.chunks && IsReady(rows, rows.chunks[c].documentId)
  }

  predicate IsHit(engine: Engine, rows: Rows, query: string, filters: SearchFilters, c: ChunkId) {
    && IsVisible(rows, c)
    && engine.matches(rows.chunks[c].text, query)
    && Passes(filters, rows.chunks[c].documentId, rows.docs[rows.chunks[c].documentId].mediaType)
  }

  function RankOf(engine: Engine, rows: Rows, query: string, c: ChunkId): real {
    if c in rows.chunks then engine.textRank(rows.chunks[c].text, query) else 0.0
  }

  /** `order_by(desc(rank), id)` */
  predicate ComesBefore(engine: Engine, rows: Rows, query: string, a: ChunkId, b: ChunkId) {
    var x, y := RankOf(engine, rows, query, a), RankOf(engine, rows, query, b);
    x > y || (x == y && engine.idLeq(a, b))
  }

  /** `keyword_candidates`: the first `limit` hits in order, with text ranks, numbered from one. */
  ghost predicate IsKeywordAnswer(engine: Engine, rows: Rows, query: string, limit: nat, filters: SearchFilters, answer: Hits) {
    && |answer| <= limit
    && (forall i :: 0 <= i < |answer| ==>
          && IsHit(engine, rows, query, filters, answer[i].chunkId)
          && answer[i] == RetrievalCandidate(answer[i].chunkId, i + 1, RankOf(engine, rows, query, answer[i].chunkId)))
    && (forall i, j :: 0 <= i < j < |answer| ==>
          answer[i].chunkId != answer[j].chunkId
          && ComesBefore(engine, rows, query, answer[i].chunkId, answer[j].chunkId))
    && (forall c :: IsHit(engine, rows, query, filters, c) && !Occurs(answer, c) ==>
          |answer| == limit
          && forall i :: 0 <= i < |answer| ==> ComesBefore(engine, rows, query, answer[i].chunkId, c))
  }

  predicate PointPasses(points: map<ChunkId, Point>, filters: SearchFilters, c: ChunkId) {
    c in points && Passes(filters, points[c].documentId, points[c].mediaType)
  }

  /** The index search: at most `limit` distinct points whose payload passes the filters, numbered
      from one; which ones, and their scores, is up to the index. */
  predicate IsVectorAnswer(points: map<ChunkId, Point>, limit: nat, filters: SearchFilters, answer: Hits) {
    && |answer| <= limit
    && DistinctCandidates(answer)
    && forall i :: 0 <= i < |answer| ==> answer[i].rank == i + 1 && PointPasses(points, filters, answer[i].chunkId)
  }

  /** `load_chunks` */
  function LoadChunks(rows: Rows, ids: seq<ChunkId>): map<ChunkId, SearchableChunk> {
    map c | c in rows.chunks && c in ids && IsVisible(rows, c) :: Searchable(rows, c)
  }

  function Searchable(rows: Rows, c: ChunkId): SearchableChunk
    requires IsVisible(rows, c)
  {
    var chunk := rows.chunks[c];
    var document := rows.docs[chunk.documentId];
    SearchableChunk(chunk.id, chunk.documentId, chunk.text, document.originalFilename, document.mediaType, chunk.locator)
  }

  /** The candidates are the source's hits in their order, each with its score, its rank in the
      column of the mode and nothing in the other. */
  predicate ListsSource(mode: SearchMode, source: Hits, ranked: Ranked) {
    && |ranked| == |source|
    && forall i :: 0 <= i < |source| ==>
         && ranked[i].chunkId == source[i].chunkId && ranked[i].score == source[i].score
         && ranked[i].keywordRank == (if mode == KeywordMode then Some(source[i].rank) else None)
         && ranked[i].vectorRank == (if mode == VectorMode then Some(source[i].rank) else None)
  }

  /** `_rank` outside hybrid mode. */
  function Solo(mode: SearchMode, source: Hits): (ranked: Ranked)
    ensures ListsSource(mode, source, ranked)
  {
    seq(|source|, i requires 0 <= i < |source| =>
      FusedCandidate(source[i].chunkId, source[i].score,
                     if mode == KeywordMode then Some(source[i].rank) else None,
                     if mode == VectorMode then Some(source[i].rank) else None))
  }

  ghost predicate IsRanking(engine: Engine, mode: SearchMode, keyword: Hits, vector: Hits, ranked: Ranked)
    requires engine.Valid()
  {
    match mode
    case HybridMode => IsFusion(ranked, keyword, vector, engine.rrfK, engine.idLeq)
    case KeywordMode => ListsSource(mode, keyword, ranked)
    case VectorMode => ListsSource(mode, vector, ranked)
  }

  lemma SourceIsSolo(mode: SearchMode, source: Hits, ranked: Ranked)
    requires ListsSource(mode, source, ranked)
    ensures ranked == Solo(mode, source)
  {
  }

  /** `_rank` */
  method Rank(engine: Engine, mode: SearchMode, keyword: Hits, vector: Hits) returns (ranked: Ranked)
    requires engine.Valid()
    ensures IsRanking(engine, mode, keyword, vector, ranked)
  {
    if mode == HybridMode {
      var fused := ReciprocalRankFusion(keyword, vector, engine.rrfK, engine.idLeq);
      return fused.value;
    }
    var source := if mode == KeywordMode then keyword else vector;
    return Solo(mode, source);
  }

  function RankedIds(ranked: Ranked): seq<ChunkId> {
    seq(|ranked|, i requires 0 <= i < |ranked| => ranked[i].chunkId)
  }

  function ResultOf(candidate: FusedCandidate<ChunkId>, chunk: SearchableChunk): SearchResult {
    SearchResult(candidate.score, candidate.keywordRank, candidate.vectorRank, chunk.mediaType,
                 Citation(chunk.documentId, chunk.id, chunk.originalFilename, chunk.text,
                          chunk.locator.sectionPath, chunk.locator.pageNumber))
  }

  /** The results of all loaded candidates, in ranked order. */
  function LoadedResults(ranked: Ranked, chunks: map<ChunkId, SearchableChunk>): seq<SearchResult> {
    if ranked == [] then []
    else
      var front, last := LoadedResults(ranked[..|ranked| - 1], chunks), ranked[|ranked| - 1];
      if last.chunkId in chunks then front + [ResultOf(last, chunks[last.chunkId])] else front
  }

  lemma {:induction false} LoadedPrefix(ranked: Ranked, chunks: map<ChunkId, SearchableChunk>, n: nat)
    requires n <= |ranked|
    ensures var some, all := LoadedResults(ranked[..n], chunks), LoadedResults(ranked, chunks);
            |some| <= |all| && all[..|some|] == some
  {
    if n < |ranked| {
      var front := ranked[..|ranked| - 1];
      assert front[..n] == ranked[..n];
      LoadedPrefix(front, chunks, n);
    } else {
      assert ranked[..n] == ranked;
    }
  }

  /** The loop of `search`: candidates that were not loaded are skipped, and the loop stops at
      `limit` results. */
  method Assemble(ranked: Ranked, chunks: map<ChunkId, SearchableChunk>, limit: nat) returns (results: seq<SearchResult>)
    requires limit >= 1
    ensures results == Top(LoadedResults(ranked, chunks), limit)
  {
    results := [];
    for i := 0 to |ranked|
      invariant results == LoadedResults(ranked[..i], chunks) && |results| < limit
    {
      var candidate := ranked[i];
      assert ranked[..i + 1][..i] == ranked[..i];
      if candidate.chunkId !in chunks {
        continue;
      }
      results := results + [ResultOf(candidate, chunks[candidate.chunkId])];
      if |results| == limit {
        LoadedPrefix(ranked, chunks, i + 1);
        return;
      }
    }
    assert ranked[..|ranked|] == ranked;
  }

  /** Position p of the ranking is visible, and `result` is that candidate's score and ranks with a
      citation of its chunk. */
  predicate ShownAt(rows: Rows, ranked: Ranked, p: nat, result: SearchResult) {
    && p < |ranked| && IsVisible(rows, ranked[p].chunkId)
    && var chunk := rows.chunks[ranked[p].chunkId];
    && var document := rows.docs[chunk.documentId];
    && result.score == ranked[p].score
    && result.keywordRank == ranked[p].keywordRank && result.vectorRank == ranked[p].vectorRank
    && result.mediaType == document.mediaType
    && result.citation == Citation(chunk.documentId, chunk.id, document.originalFilename, chunk.text,
                                   chunk.locator.sectionPath, chunk.locator.pageNumber)
  }

  /** positions are those of the visible candidates among the first n, and all are their results. */
  ghost predicate AreVisible(rows: Rows, ranked: Ranked, n: nat, positions: seq<nat>, all: seq<SearchResult>) {
    && |positions| == |all| && Ascending(positions)
    && (forall i :: 0 <= i < |all| ==> positions[i] < n && ShownAt(rows, ranked, positions[i], all[i]))
    && (forall p: nat :: p < n && p < |ranked| && IsVisible(rows, ranked[p].chunkId) ==> p in positions)
  }

  lemma OneMoreVisible(rows: Rows, ranked: Ranked, n: nat, positions: seq<nat>, all: seq<SearchResult>, result: SearchResult)
    requires AreVisible(rows, ranked, n, positions, all)
    requires ShownAt(rows, ranked, n, result)
    ensures AreVisible(rows, ranked, n + 1, positions + [n], all + [result])
  {
    hide ShownAt, IsVisible;
    var more := positions + [n];
    assert forall p :: p in more <==> p in positions || p == n;
  }

  lemma {:induction false} LoadedAreVisible(rows: Rows, ranked: Ranked, chunks: map<ChunkId, SearchableChunk>, n: nat)
    returns (positions: seq<nat>)
    requires n <= |ranked| && chunks == LoadChunks(rows, RankedIds(ranked))
    ensures AreVisible(rows, ranked, n, positions, LoadedResults(ranked[..n], chunks))
  {
    hide LoadChunks, IsVisible, ResultOf, Searchable;
    if n == 0 {
      positions := [];
    } else {
      assert ranked[..n][..n - 1] == ranked[..n - 1];
      positions := LoadedAreVisible(rows, ranked, chunks, n - 1);
      var c := ranked[n - 1].chunkId;
      assert RankedIds(ranked)[n - 1] == c;
      LoadedIffVisible(rows, RankedIds(ranked), c);
      if c in chunks {
        ResultIsShown(rows, ranked, n - 1);
        OneMoreVisible(rows, ranked, n - 1, positions, LoadedResults(ranked[..n - 1], chunks), ResultOf(ranked[n - 1], chunks[c]));
        positions := positions + [n - 1];
      }
    }
  }

  lemma ResultIsShown(rows: Rows, ranked: Ranked, p: nat)
    requires p < |ranked| && IsVisible(rows, ranked[p].chunkId)
    ensures ShownAt(rows, ranked, p, ResultOf(ranked[p], Searchable(rows, ranked[p].chunkId)))
  {
  }

  lemma LoadedIffVisible(rows: Rows, ids: seq<ChunkId>, c: ChunkId)
    requires c in ids
    ensures c in LoadChunks(rows, ids) <==> IsVisible(rows, c)
    ensures IsVisible(rows, c) ==> LoadChunks(rows, ids)[c] == Searchable(rows, c)
  {
  }

  function ResultsOf(rows: Rows, ranked: Ranked, limit: nat): seq<SearchResult> {
    Top(LoadedResults(ranked, LoadChunks(rows, RankedIds(ranked))), limit)
  }

  /** Whatever the rankings list, even chunks long gone: the results are exactly the first `limit`
      candidates visible when the chunks are loaded, in ranked order. */
  lemma ResultsAreFirstVisible(rows: Rows, ranked: Ranked, limit: nat) returns (positions: seq<nat>)
    ensures var results := ResultsOf(rows, ranked, limit);
            && |positions| == |results| <= limit && Ascending(positions)
            && (forall i :: 0 <= i < |results| ==> ShownAt(rows, ranked, positions[i], results[i]))
            && (forall p: nat :: p < |ranked| && IsVisible(rows, ranked[p].chunkId) ==>
                  p in positions || (|results| == limit && forall i :: 0 <= i < |results| ==> positions[i] < p))
  {
    var chunks := LoadChunks(rows, RankedIds(ranked));
    var all := LoadedAreVisible(rows, ranked, chunks, |ranked|);
    assert ranked[..|ranked|] == ranked;
    hide LoadChunks, LoadedResults;
    positions := Top(all, limit);
    forall p: nat | p < |ranked| && IsVisible(rows, ranked[p].chunkId)
      ensures p in positions || (|positions| == limit && forall i :: 0 <= i < |positions| ==> positions[i] < p)
    {
      var k :| 0 <= k < |all| && all[k] == p;
      if k < |positions| { assert positions[k] == p; }
    }
  }

  /** What one search returns, from the two candidate lists it got and the tables it loads from. */
  ghost predicate IsExecution(engine: Engine, request: Request, keyword: Hits, vector: Hits, rows: Rows, execution: SearchExecution)
    requires engine.Valid() && request.limit >= 1
  {
    exists ranked :: IsRanking(engine, request.mode, keyword, vector, ranked)
                     && execution == ExecutionOf(request, rows, ranked)
  }

  function ExecutionOf(request: Request, rows: Rows, ranked: Ranked): SearchExecution
    requires request.limit >= 1
  {
    SearchExecution(NormalizeQuery(request.query), request.mode, ResultsOf(rows, ranked, request.limit))
  }

  // ---- the order of the results

  predicate ScoresFall(results: seq<SearchResult>) {
    forall i, j :: 0 <= i < j < |results| ==> results[i].score >= results[j].score
  }

  /** Outside hybrid mode the results have their ranks in the one list, rising, and none in the
      other; the scores of the index alone need not fall. */
  predicate Ordered(mode: SearchMode, results: seq<SearchResult>) {
    match mode
    case HybridMode => ScoresFall(results)
    case KeywordMode =>
      && ScoresFall(results)
      && (forall i :: 0 <= i < |results| ==> results[i].keywordRank.Some? && results[i].vectorRank.None?)
      && (forall i, j :: 0 <= i < j < |results| ==> results[i].keywordRank.value < results[j].keywordRank.value)
    case VectorMode =>
      && (forall i :: 0 <= i < |results| ==> results[i].vectorRank.Some? && results[i].keywordRank.None?)
      && (forall i, j :: 0 <= i < j < |results| ==> results[i].vectorRank.value < results[j].vectorRank.value)
  }

  predicate Numbered(hits: Hits) {
    forall i :: 0 <= i < |hits| ==> hits[i].rank == i + 1
  }

  /** Candidates in the order of `Ordered`. */
  predicate RankedInOrder(mode: SearchMode, ranked: Ranked) {
    && (mode != VectorMode ==> forall i, j :: 0 <= i < j < |ranked| ==> ranked[i].score >= ranked[j].score)
    && (mode == KeywordMode ==> forall i :: 0 <= i < |ranked| ==> ranked[i].keywordRank == Some(i + 1) && ranked[i].vectorRank == None)
    && (mode == VectorMode ==> forall i :: 0 <= i < |ranked| ==> ranked[i].vectorRank == Some(i + 1) && ranked[i].keywordRank == None)
  }

  lemma RankingIsInOrder(engine: Engine, found: Rows, query: string, limit: nat, filters: SearchFilters,
                         mode: SearchMode, keyword: Hits, vector: Hits, ranked: Ranked)
    requires engine.Valid() && IsRanking(engine, mode, keyword, vector, ranked)
    requires mode == KeywordMode ==> IsKeywordAnswer(engine, found, query, limit, filters, keyword)
    requires mode == VectorMode ==> Numbered(vector)
    ensures RankedInOrder(mode, ranked)
  {
    hide IsHit, RankOf, Score, LastRank, InUnion, Lists;
    if mode == HybridMode {
      forall i, j | 0 <= i < j < |ranked| ensures ranked[i].score >= ranked[j].score {
        assert NoLater(engine.idLeq)(ranked[i], ranked[j]);
      }
    }
  }

  /** The results keep the order of the ranking, whatever chunks have gone meanwhile. */
  lemma ResultsAreOrdered(rows: Rows, ranked: Ranked, limit: nat, mode: SearchMode)
    requires RankedInOrder(mode, ranked)
    ensures Ordered(mode, ResultsOf(rows, ranked, limit))
  {
    hide ResultsOf, IsVisible;
    var results := ResultsOf(rows, ranked, limit);
    var positions := ResultsAreFirstVisible(rows, ranked, limit);
    forall i | 0 <= i < |results|
      ensures results[i].score == ranked[positions[i]].score && results[i].keywordRank == ranked[positions[i]].keywordRank
              && results[i].vectorRank == ranked[positions[i]].vectorRank
    {
      assert ShownAt(rows, ranked, positions[i], results[i]);
    }
  }

  /** What the caller of a keyword search asks for. */
  predicate Wanted(engine: Engine, rows: Rows, request: Request, c: ChunkId) {
    && c in rows.chunks && rows.chunks[c].documentId in rows.docs
    && var document := rows.docs[rows.chunks[c].documentId];
    && document.status == Ready
    && engine.matches(rows.chunks[c].text, NormalizeQuery(request.query))
    && (request.filters.documentIds != [] ==> rows.chunks[c].documentId in request.filters.documentIds)
    && (request.filters.mediaTypes != [] ==> document.mediaType in request.filters.mediaTypes)
  }

  /** Text ranks fall, and equal ones stand in the order of the identifiers. */
  predicate Ahead(engine: Engine, rows: Rows, query: string, a: ChunkId, b: ChunkId)
    requires a in rows.chunks && b in rows.chunks
  {
    var x, y := engine.textRank(rows.chunks[a].text, query), engine.textRank(rows.chunks[b].text, query);
    x > y || (x == y && engine.idLeq(a, b))
  }

  /** The page a keyword search promises: wanted chunks only, each once, with its text rank as score
      and numbered from one, the best ahead; a wanted chunk is missing only behind a full page. */
  ghost predicate IsKeywordPage(engine: Engine, rows: Rows, request: Request, results: seq<SearchResult>) {
    && var query := NormalizeQuery(request.query);
    && |results| <= request.limit
    && (forall i :: 0 <= i < |results| ==>
          && var c := results[i].citation.chunkId;
          && Wanted(engine, rows, request, c)
          && results[i].score == engine.textRank(rows.chunks[c].text, query)
          && results[i].keywordRank == Some(i + 1) && results[i].vectorRank == None)
    && (forall i, j :: 0 <= i < j < |results| ==>
          && results[i].citation.chunkId != results[j].citation.chunkId
          && Ahead(engine, rows, query, results[i].citation.chunkId, results[j].citation.chunkId))
    && (forall c :: Wanted(engine, rows, request, c) && (forall i :: 0 <= i < |results| ==> results[i].citation.chunkId != c) ==>
          |results| == request.limit
          && forall i :: 0 <= i < |results| ==> Ahead(engine, rows, query, results[i].citation.chunkId, c))
  }

  lemma HitsAreWanted(engine: Engine, rows: Rows, request: Request)
    ensures forall c :: IsHit(engine, rows, NormalizeQuery(request.query), request.filters, c) <==> Wanted(engine, rows, request, c)
  {
    hide NormalizeQuery;
  }

  lemma AheadIsBefore(engine: Engine, rows: Rows, query: string)
    ensures forall a, b :: a in rows.chunks && b in rows.chunks ==>
              (ComesBefore(engine, rows, query, a, b) <==> Ahead(engine, rows, query, a, b))
  {
  }

  /** With every candidate visible the results are the first candidates. */
  lemma AllVisibleShown(rows: Rows, ranked: Ranked, limit: nat)
    requires forall p :: 0 <= p < |ranked| ==> IsVisible(rows, ranked[p].chunkId)
    ensures var results := ResultsOf(rows, ranked, limit);
            && |results| == |Top(ranked, limit)|
            && forall i :: 0 <= i < |results| ==> ShownAt(rows, ranked, i, results[i])
  {
    hide ResultsOf, IsVisible;
    var results := ResultsOf(rows, ranked, limit);
    var positions := ResultsAreFirstVisible(rows, ranked, limit);
    FirstPositions(positions, |ranked|, limit);
  }

  lemma FirstPositions(positions: seq<nat>, n: nat, limit: nat)
    requires Ascending(positions) && |positions| <= limit
    requires forall i :: 0 <= i < |positions| ==> positions[i] < n
    requires forall p: nat :: p < n ==> p in positions || (|positions| == limit && forall i :: 0 <= i < |positions| ==> positions[i] < p)
    ensures |positions| == (if limit <= n then limit else n)
    ensures forall i :: 0 <= i < |positions| ==> positions[i] == i
  {
    PositionsAreIndices(positions, n, limit, |positions|);
    var p: nat := |positions|;
    assert p !in positions;
    if p > 0 { assert positions[p - 1] == p - 1; }
  }

  lemma {:induction false} PositionsAreIndices(positions: seq<nat>, n: nat, limit: nat, m: nat)
    requires Ascending(positions) && |positions| <= limit && m <= |positions|
    requires forall i :: 0 <= i < |positions| ==> positions[i] < n
    requires forall p: nat :: p < n ==> p in positions || (|positions| == limit && forall i :: 0 <= i < |positions| ==> positions[i] < p)
    ensures forall i :: 0 <= i < m ==> positions[i] == i
  {
    if m > 0 {
      PositionsAreIndices(positions, n, limit, m - 1);
      var last: nat := m - 1;
      assert last > 0 ==> positions[last] > positions[last - 1];
      assert positions[last] >= last;
      assert last in positions;
      var k :| 0 <= k < |positions| && positions[k] == last;
      assert k >= last;
    }
  }

  /** A keyword search in which nothing changes returns the page it promises. */
  lemma KeywordSearchIsExact(engine: Engine, rows: Rows, request: Request, keyword: Hits, vector: Hits, ranked: Ranked)
    requires engine.Valid() && request.limit >= 1 && request.mode == KeywordMode && KeyedById(rows)
    requires IsKeywordAnswer(engine, rows, NormalizeQuery(request.query), request.limit * engine.candidateMultiplier, request.filters, keyword)
    requires IsRanking(engine, request.mode, keyword, vector, ranked)
    ensures IsKeywordPage(engine, rows, request, ExecutionOf(request, rows, ranked).results)
  {
    hide ResultsOf, NormalizeQuery, IsHit, ComesBefore, Wanted, Ahead;
    var query, results := NormalizeQuery(request.query), ResultsOf(rows, ranked, request.limit);
    HitsAreWanted(engine, rows, request);
    AheadIsBefore(engine, rows, query);
    HitsAreVisible(engine, rows, query, request.filters);
    assert forall p :: 0 <= p < |ranked| ==> ranked[p].chunkId == keyword[p].chunkId;
    AllVisibleShown(rows, ranked, request.limit);
    assert forall i :: 0 <= i < |results| ==> results[i].citation.chunkId == keyword[i].chunkId;
    KeywordPage(engine, rows, request, keyword, results);
  }

  lemma HitsAreVisible(engine: Engine, rows: Rows, query: string, filters: SearchFilters)
    ensures forall c :: IsHit(engine, rows, query, filters, c) ==> IsVisible(rows, c) && c in rows.chunks
  {
  }

  lemma KeywordPage(engine: Engine, rows: Rows, request: Request, keyword: Hits, results: seq<SearchResult>)
    requires engine.Valid() && request.limit >= 1
    requires IsKeywordAnswer(engine, rows, NormalizeQuery(request.query), request.limit * engine.candidateMultiplier, request.filters, keyword)
    requires |results| == |Top(keyword, request.limit)|
    requires forall i :: 0 <= i < |results| ==>
               && results[i].citation.chunkId == keyword[i].chunkId && results[i].score == keyword[i].score
               && results[i].keywordRank == Some(keyword[i].rank) && results[i].vectorRank == None
    ensures IsKeywordPage(engine, rows, request, results)
  {
    hide NormalizeQuery, IsHit, ComesBefore, Wanted, Ahead;
    var query := NormalizeQuery(request.query);
    HitsAreWanted(engine, rows, request);
    AheadIsBefore(engine, rows, query);
    HitsAreVisible(engine, rows, query, request.filters);
    forall c | Wanted(engine, rows, request, c) && (forall i :: 0 <= i < |results| ==> results[i].citation.chunkId != c)
      ensures |results| == request.limit
      ensures forall i :: 0 <= i < |results| ==> Ahead(engine, rows, query, results[i].citation.chunkId, c)
    {
      MissingIsBehind(engine, rows, request, keyword, results, c);
    }
  }

  lemma MissingIsBehind(engine: Engine, rows: Rows, request: Request, keyword: Hits, results: seq<SearchResult>, c: ChunkId)
    requires engine.Valid() && request.limit >= 1
    requires IsKeywordAnswer(engine, rows, NormalizeQuery(request.query), request.limit * engine.candidateMultiplier, request.filters, keyword)
    requires |results| == |Top(keyword, request.limit)|
    requires forall i :: 0 <= i < |results| ==> results[i].citation.chunkId == keyword[i].chunkId
    requires IsHit(engine, rows, NormalizeQuery(request.query), request.filters, c)
    requires forall i :: 0 <= i < |results| ==> results[i].citation.chunkId != c
    ensures |results| == request.limit
    ensures forall i :: 0 <= i < |results| ==> ComesBefore(engine, rows, NormalizeQuery(request.query), results[i].citation.chunkId, c)
  {
    hide NormalizeQuery, IsHit, ComesBefore;
    if Occurs(keyword, c) {
      var k :| 0 <= k < |keyword| && keyword[k].chunkId == c;
      assert k >= |results|;
    } else {
      assert |keyword| == request.limit * engine.candidateMultiplier >= request.limit;
    }
  }

  /** The checks at the head of `search`. */
  function Check(request: Request): Option<SearchError> {
    if NormalizeQuery(request.query) == "" then Some(BlankQuery)
    else if request.limit < 1 then Some(NonPositiveLimit)
    else None
  }

  // ---- passages and filters

  /** The result cites a chunk of a READY document, with exactly the chunk's text and place in the
      document and the document's name and media type. */
  predicate Shows(rows: Rows, result: SearchResult) {
    && var c := result.citation.chunkId;
    && c in rows.chunks && rows.chunks[c].id == c && rows.chunks[c].documentId in rows.docs
    && rows.docs[rows.chunks[c].documentId].status == Ready
    && result.citation.documentId == rows.chunks[c].documentId
    && result.citation.excerpt == rows.chunks[c].text
    && result.citation.sectionPath == rows.chunks[c].locator.sectionPath
    && result.citation.pageNumber == rows.chunks[c].locator.pageNumber
    && result.citation.originalFilename == rows.docs[rows.chunks[c].documentId].originalFilename
    && result.mediaType == rows.docs[rows.chunks[c].documentId].mediaType
  }

  predicate AllShown(rows: Rows, execution: SearchExecution) {
    forall i :: 0 <= i < |execution.results| ==> Shows(rows, execution.results[i])
  }

  predicate ResultPasses(filters: SearchFilters, result: SearchResult) {
    && (filters.documentIds != [] ==> result.citation.documentId in filters.documentIds)
    && (filters.mediaTypes != [] ==> result.mediaType in filters.mediaTypes)
  }

  predicate AllPass(filters: SearchFilters, execution: SearchExecution) {
    forall i :: 0 <= i < |execution.results| ==> ResultPasses(filters, execution.results[i])
  }

  /** Every row is stored under its own identifier. */
  ghost predicate KeyedById(rows: Rows) {
    forall c :: c in rows.chunks ==> rows.chunks[c].id == c
  }

  lemma ExecutionIsShown(request: Request, rows: Rows, ranked: Ranked)
    requires request.limit >= 1 && KeyedById(rows)
    ensures AllShown(rows, ExecutionOf(request, rows, ranked))
  {
    hide ResultsOf;
    var positions := ResultsAreFirstVisible(rows, ranked, request.limit);
    var results := ResultsOf(rows, ranked, request.limit);
    forall i | 0 <= i < |results| ensures Shows(rows, results[i]) {
      assert ShownAt(rows, ranked, positions[i], results[i]);
    }
  }

  // ---- the keyword answer is determined by the visible corpus

  /** What a search can see of the tables. */
  predicate SameCorpus(rows: Rows, rows': Rows) {
    ReadyDocuments(rows) == ReadyDocuments(rows') && ReadyChunks(rows) == ReadyChunks(rows')
  }

  /** Chunk rows name the document their identifier names. */
  predicate OwnedById(rows: Rows) {
    forall c :: c in rows.chunks ==> rows.chunks[c].documentId == c.documentId
  }

  lemma VisibleInBoth(rows: Rows, rows': Rows, c: ChunkId)
    requires SameCorpus(rows, rows') && OwnedById(rows) && OwnedById(rows')
    ensures IsVisible(rows, c) <==> IsVisible(rows', c)
    ensures IsVisible(rows, c) ==>
              rows.chunks[c] == rows'.chunks[c] && rows.docs[c.documentId] == rows'.docs[c.documentId]
              && Searchable(rows, c) == Searchable(rows', c)
  {
    assert IsVisible(rows, c) <==> c in ReadyChunks(rows);
    assert IsVisible(rows', c) <==> c in ReadyChunks(rows');
    if IsVisible(rows, c) {
      assert ReadyChunks(rows)[c] == ReadyChunks(rows')[c];
      assert ReadyDocuments(rows)[c.documentId] == ReadyDocuments(rows')[c.documentId];
    }
  }

  lemma AnswerInBoth(engine: Engine, rows: Rows, rows': Rows, query: string, limit: nat, filters: SearchFilters, answer: Hits)
    requires SameCorpus(rows, rows') && OwnedById(rows) && OwnedById(rows')
    requires IsKeywordAnswer(engine, rows, query, limit, filters, answer)
    ensures IsKeywordAnswer(engine, rows', query, limit, filters, answer)
  {
    forall c ensures IsHit(engine, rows, query, filters, c) <==> IsHit(engine, rows', query, filters, c)
    {
      VisibleInBoth(rows, rows', c);
    }
    forall c | IsHit(engine, rows, query, filters, c)
      ensures RankOf(engine, rows, query, c) == RankOf(engine, rows', query, c)
    {
      VisibleInBoth(rows, rows', c);
    }
    hide IsHit, RankOf, SameCorpus, OwnedById;
  }

  lemma LoadInBoth(rows: Rows, rows': Rows, ids: seq<ChunkId>)
    requires SameCorpus(rows, rows') && OwnedById(rows) && OwnedById(rows')
    ensures LoadChunks(rows, ids) == LoadChunks(rows', ids)
  {
    forall c ensures c in LoadChunks(rows, ids) <==> c in LoadChunks(rows', ids) {
      VisibleInBoth(rows, rows', c);
    }
    forall c | c in LoadChunks(rows, ids) ensures LoadChunks(rows, ids)[c] == LoadChunks(rows', ids)[c] {
      VisibleInBoth(rows, rows', c);
    }
  }

  lemma SameHit(engine: Engine, rows: Rows, query: string, limit: nat, filters: SearchFilters, a: Hits, b: Hits, i: nat)
    requires engine.Valid()
    requires IsKeywordAnswer(engine, rows, query, limit, filters, a) && IsKeywordAnswer(engine, rows, query, limit, filters, b)
    requires i < |a| && i < |b|
    requires ComesBefore(engine, rows, query, a[i].chunkId, b[i].chunkId)
    requires ComesBefore(engine, rows, query, b[i].chunkId, a[i].chunkId)
    ensures a[i] == b[i]
  {
    hide IsHit, RankOf;
    assert engine.idLeq(a[i].chunkId, b[i].chunkId) && engine.idLeq(b[i].chunkId, a[i].chunkId);
  }

  /** Candidate a[i] comes no later than any candidate of the other answer from position i on. */
  lemma AnswerPrecedes(engine: Engine, rows: Rows, query: string, limit: nat, filters: SearchFilters, a: Hits, b: Hits, i: nat)
    requires engine.Valid()
    requires IsKeywordAnswer(engine, rows, query, limit, filters, a) && IsKeywordAnswer(engine, rows, query, limit, filters, b)
    requires i < |a| && i < |b| && forall j :: 0 <= j < i ==> a[j] == b[j]
    ensures ComesBefore(engine, rows, query, a[i].chunkId, b[i].chunkId)
  {
    hide IsHit, RankOf, ComesBefore;
    var y := b[i].chunkId;
    if Occurs(a, y) {
      var j :| 0 <= j < |a| && a[j].chunkId == y;
      if j == i { BeforeItself(engine, rows, query, y); }
    }
  }

  lemma BeforeItself(engine: Engine, rows: Rows, query: string, c: ChunkId)
    requires engine.Valid()
    ensures ComesBefore(engine, rows, query, c, c)
  {
  }

  lemma {:induction false} AnswersAgree(engine: Engine, rows: Rows, query: string, limit: nat, filters: SearchFilters, a: Hits, b: Hits, n: nat)
    requires engine.Valid()
    requires IsKeywordAnswer(engine, rows, query, limit, filters, a) && IsKeywordAnswer(engine, rows, query, limit, filters, b)
    requires n <= |a| && n <= |b|
    ensures forall j :: 0 <= j < n ==> a[j] == b[j]
  {
    hide IsKeywordAnswer, ComesBefore;
    if n > 0 {
      AnswersAgree(engine, rows, query, limit, filters, a, b, n - 1);
      AnswerPrecedes(engine, rows, query, limit, filters, a, b, n - 1);
      AnswerPrecedes(engine, rows, query, limit, filters, b, a, n - 1);
      SameHit(engine, rows, query, limit, filters, a, b, n - 1);
    }
  }

  /** The tables determine the keyword answer. */
  lemma KeywordAnswerIsUnique(engine: Engine, rows: Rows, query: string, limit: nat, filters: SearchFilters, a: Hits, b: Hits)
    requires engine.Valid()
    requires IsKeywordAnswer(engine, rows, query, limit, filters, a) && IsKeywordAnswer(engine, rows, query, limit, filters, b)
    ensures a == b
  {
    hide IsHit, RankOf, ComesBefore;
    var n := if |a| <= |b| then |a| else |b|;
    AnswersAgree(engine, rows, query, limit, filters, a, b, n);
    if |a| < |b| { NotYetListed(a, b); }
    if |b| < |a| { NotYetListed(b, a); }
  }

  /** A longer answer's next candidate is missing from the shorter one. */
  lemma NotYetListed(a: Hits, b: Hits)
    requires |a| < |b| && forall j :: 0 <= j < |a| ==> a[j] == b[j]
    requires forall i, j :: 0 <= i < j < |b| ==> b[i].chunkId != b[j].chunkId
    ensures !Occurs(a, b[|a|].chunkId)
  {
  }

  lemma FilterMembersDecide(filters: SearchFilters, filters': SearchFilters, d: DocumentId, m: MediaType)
    requires multiset(filters.documentIds) == multiset(filters'.documentIds)
    requires multiset(filters.mediaTypes) == multiset(filters'.mediaTypes)
    ensures Passes(filters, d, m) == Passes(filters', d, m)
  {
    SameElements(filters.documentIds, filters'.documentIds);
    SameElements(filters.mediaTypes, filters'.mediaTypes);
    assert |multiset(filters.documentIds)| == |filters.documentIds| && |multiset(filters'.documentIds)| == |filters'.documentIds|;
    assert |multiset(filters.mediaTypes)| == |filters.mediaTypes| && |multiset(filters'.mediaTypes)| == |filters'.mediaTypes|;
  }
}
