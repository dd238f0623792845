/** The revision-keyed result cache (cache.py) over the running lifecycle. Any number of requests
    search at once; reading the revision, looking into the cache, each query of the search and the
    store are separate actions, and cache entries may vanish at any time. */
module CachedSearch {
  import opened Results
  import opened Texts
  import opened Domain
  import opened Transactions
  import opened Lifecycle
  import opened LifecycleSafety
  import opened LifecycleSteps
  import opened LifecycleResults
  import opened LifecycleGuarantees
  import opened Sorting
  import opened Ranking
  import opened Search

  // ---- keys

  /** The canonical form whose SHA-256 is the cache key. */
  datatype CacheKey = CacheKey(
    query: string, mode: SearchMode, limit: int,
    documentIds: seq<DocumentId>, mediaTypes: seq<MediaType>, revision: nat)

  function MediaPlace(m: MediaType): nat {
    match m
    case Pdf => 0
    case Markdown => 1
    case PlainText => 2
  }

  /** The order of "application/pdf", "text/markdown" and "text/plain". */
  function MediaLeq(): (MediaType, MediaType) -> bool {
    (a: MediaType, b: MediaType) => MediaPlace(a) <= MediaPlace(b)
  }

  /** `_cache_key` */
  function KeyOf(engine: Engine, request: Request, revision: nat): CacheKey {
    CacheKey(NormalizeQuery(request.query), request.mode, request.limit,
             SortBy(engine.documentLeq, request.filters.documentIds),
             SortBy(MediaLeq(), request.filters.mediaTypes), revision)
  }

  /** Two requests that any search answers alike. */
  predicate SameSearch(a: Request, b: Request) {
    && Words(a.query) == Words(b.query) && a.mode == b.mode && a.limit == b.limit
    && multiset(a.filters.documentIds) == multiset(b.filters.documentIds)
    && multiset(a.filters.mediaTypes) == multiset(b.filters.mediaTypes)
  }

  lemma SortedAgree<T(!new)>(leq: (T, T) -> bool, a: seq<T>, b: seq<T>)
    requires IsOrder(leq)
    ensures SortBy(leq, a) == SortBy(leq, b) <==> multiset(a) == multiset(b)
  {
    SortKeepsElements(leq, a);
    SortKeepsElements(leq, b);
    SortSorts(leq, a);
    SortSorts(leq, b);
    if multiset(a) == multiset(b) { SortedIsUnique(leq, SortBy(leq, a), SortBy(leq, b)); }
  }

  /** Keys coincide exactly for the same words, mode, limit, filter multisets and revision. */
  lemma KeysIdentifySearches(engine: Engine, a: Request, b: Request, r: nat, r': nat)
    requires engine.Valid()
    ensures KeyOf(engine, a, r) == KeyOf(engine, b, r') <==> SameSearch(a, b) && r == r'
  {
    QueryNormalization(a.query, b.query);
    SortedAgree(engine.documentLeq, a.filters.documentIds, b.filters.documentIds);
    MediaOrder();
    SortedAgree(MediaLeq(), a.filters.mediaTypes, b.filters.mediaTypes);
  }

  lemma MediaOrder()
    ensures IsOrder(MediaLeq())
  {
  }

  function FiltersOf(key: CacheKey): SearchFilters {
    SearchFilters(key.documentIds, key.mediaTypes)
  }

  lemma KeyFilters(engine: Engine, request: Request, revision: nat, d: DocumentId, m: MediaType)
    ensures Passes(FiltersOf(KeyOf(engine, request, revision)), d, m) == Passes(request.filters, d, m)
  {
    SortKeepsElements(engine.documentLeq, request.filters.documentIds);
    SortKeepsElements(MediaLeq(), request.filters.mediaTypes);
    FilterMembersDecide(FiltersOf(KeyOf(engine, request, revision)), request.filters, d, m);
  }

  // ---- the system

  type ReaderId = nat

  /** A stored execution. The indices, which no request reads, name the instants (views) at which
      its maker read the revision, ran the keyword query and loaded the chunks. */
  datatype Entry = Entry(execution: SearchExecution, readAt: nat, foundAt: nat, loadedAt: nat)

  /** A key together with the instant its revision was read. */
  datatype Keyed = Keyed(key: CacheKey, readAt: nat)

  datatype ReaderPc =
    | ReadingRevision
    | GettingCached(keyed: Keyed)
    | FindingKeyword(maybe: Option<Keyed>)
    | FindingVector(maybe: Option<Keyed>, keyword: Hits, foundAt: nat)
    | Loading(maybe: Option<Keyed>, keyword: Hits, foundAt: nat, vector: Hits)
    | Storing(key: CacheKey, entry: Entry)
    | Returned(outcome: Result<SearchExecution, SearchError>, shownAt: nat)

  /** `since` is the instant the request began. */
  datatype Reader = Reader(request: Request, since: nat, pc: ReaderPc)

  /** `views` are the tables at all instants so far. */
  datatype System = System(
    core: State, cache: map<CacheKey, Entry>, readers: map<ReaderId, Reader>, views: seq<Rows>)
  {
    function Now(): nat {
      if views == [] then 0 else |views| - 1
    }

    function To(r: ReaderId, pc: ReaderPc): System
      requires r in readers
    {
      this.(readers := readers[r := readers[r].(pc := pc)])
    }
  }

  datatype Event =
    | CoreStep(a: Action)
    | Begin(r: ReaderId, request: Request, caching: bool)
    | ReadRevision(r: ReaderId)
    | GetCached(r: ReaderId, found: bool)
    | FindKeyword(r: ReaderId, answer: Hits)
    | FindVector(r: ReaderId, reply: Result<Hits, SearchError>)
    | LoadResults(r: ReaderId, ranked: Ranked)
    | StoreResult(r: ReaderId, stored: bool)
    | Expire(keys: set<CacheKey>)
    | Leave(r: ReaderId)

  /** A request fails exactly with the error of its checks, or past them with one of the vector
      query, if its mode makes one. */
  predicate Explains(request: Request, error: SearchError) {
    match error
    case BlankQuery => IsBlank(request.query)
    case NonPositiveLimit => !IsBlank(request.query) && request.limit < 1
    case EmbeddingError => !IsBlank(request.query) && request.limit >= 1 && request.mode != KeywordMode
    case VectorIndexError => !IsBlank(request.query) && request.limit >= 1 && request.mode != KeywordMode
  }

  ghost predicate KeywordAnswered(engine: Engine, rows: Rows, request: Request, answer: Hits)
    requires request.limit >= 1
  {
    if request.mode != VectorMode
    then IsKeywordAnswer(engine, rows, NormalizeQuery(request.query), request.limit * engine.candidateMultiplier, request.filters, answer)
    else answer == []
  }

  predicate VectorAnswered(engine: Engine, points: map<ChunkId, Point>, request: Request, answer: Hits)
    requires request.limit >= 1
  {
    if request.mode != KeywordMode
    then IsVectorAnswer(points, request.limit * engine.candidateMultiplier, request.filters, answer)
    else answer == []
  }

  predicate At(s: System, r: ReaderId) {
    r in s.readers
  }

  ghost predicate CanHappen(engine: Engine, regime: Regime, s: System, e: Event)
    requires engine.Valid()
  {
    match e
    case CoreStep(a) => Enabled(regime, s.core, a)
    case Begin(r, _, _) => r !in s.readers
    case ReadRevision(r) => At(s, r) && s.readers[r].pc.ReadingRevision?
    case GetCached(r, found) => At(s, r) && s.readers[r].pc.GettingCached? && (found ==> s.readers[r].pc.keyed.key in s.cache)
    case FindKeyword(r, answer) =>
      && At(s, r) && s.readers[r].pc.FindingKeyword?
      && (Check(s.readers[r].request).None? ==> KeywordAnswered(engine, s.core.rows, s.readers[r].request, answer))
    case FindVector(r, answer) =>
      && At(s, r) && s.readers[r].pc.FindingVector? && Check(s.readers[r].request).None?
      && (match answer
          case Success(hits) => VectorAnswered(engine, s.core.points, s.readers[r].request, hits)
          case Failure(error) => s.readers[r].request.mode != KeywordMode && (error.EmbeddingError? || error.VectorIndexError?))
    case LoadResults(r, ranked) =>
      && At(s, r) && s.readers[r].pc.Loading? && Check(s.readers[r].request).None?
      && IsRanking(engine, s.readers[r].request.mode, s.readers[r].pc.keyword, s.readers[r].pc.vector, ranked)
    case StoreResult(r, _) => At(s, r) && s.readers[r].pc.Storing?
    case Expire(_) => true
    case Leave(r) => At(s, r)
  }

  /** After the checks, the keyword candidates. */
  function KeywordFound(s: System, r: ReaderId, answer: Hits): System
    requires At(s, r) && s.readers[r].pc.FindingKeyword?
  {
    var check := Check(s.readers[r].request);
    s.To(r, if check.Some? then Returned(Failure(check.value), s.Now())
            else FindingVector(s.readers[r].pc.maybe, answer, s.Now()))
  }

  /** An error of the embedding provider or the vector index ends the request. */
  function VectorFound(s: System, r: ReaderId, answer: Result<Hits, SearchError>): System
    requires At(s, r) && s.readers[r].pc.FindingVector?
  {
    var pc := s.readers[r].pc;
    s.To(r, match answer
            case Success(hits) => Loading(pc.maybe, pc.keyword, pc.foundAt, hits)
            case Failure(error) => Returned(Failure(error), s.Now()))
  }

  /** Hydration: the results are taken from the tables as they are now. */
  function Loaded(s: System, r: ReaderId, ranked: Ranked): System
    requires At(s, r) && s.readers[r].pc.Loading? && s.readers[r].request.limit >= 1
  {
    var pc := s.readers[r].pc;
    var execution := ExecutionOf(s.readers[r].request, s.core.rows, ranked);
    s.To(r, if pc.maybe.Some?
            then Storing(pc.maybe.value.key, Entry(execution, pc.maybe.value.readAt, pc.foundAt, s.Now()))
            else Returned(Success(execution), s.Now()))
  }

  /** A hit: the entry was loaded either during this request, or before it read the revision. */
  function CacheHit(s: System, r: ReaderId): System
    requires At(s, r) && s.readers[r].pc.GettingCached? && s.readers[r].pc.keyed.key in s.cache
  {
    var keyed := s.readers[r].pc.keyed;
    var entry := s.cache[keyed.key];
    s.To(r, Returned(Success(entry.execution), if entry.loadedAt >= keyed.readAt then entry.loadedAt else keyed.readAt))
  }

  ghost function Happen(engine: Engine, preparer: Preparer, regime: Regime, s: System, e: Event): System
    requires engine.Valid() && CanHappen(engine, regime, s, e)
  {
    match e
    case CoreStep(a) =>
      var core := Apply(preparer, regime, s.core, a);
      s.(core := core, views := s.views + [core.rows])
    case Begin(r, request, caching) =>
      s.(readers := s.readers[r := Reader(request, s.Now(), if caching then ReadingRevision else FindingKeyword(None))])
    case ReadRevision(r) =>
      s.To(r, GettingCached(Keyed(KeyOf(engine, s.readers[r].request, s.core.rows.revision), s.Now())))
    case GetCached(r, found) =>
      if found then CacheHit(s, r) else s.To(r, FindingKeyword(Some(s.readers[r].pc.keyed)))
    case FindKeyword(r, answer) => KeywordFound(s, r, answer)
    case FindVector(r, answer) => VectorFound(s, r, answer)
    case LoadResults(r, ranked) => Loaded(s, r, ranked)
    case StoreResult(r, stored) =>
      var pc := s.readers[r].pc;
      (if stored then s.(cache := s.cache[pc.key := pc.entry]) else s)
        .To(r, Returned(Success(pc.entry.execution), pc.entry.loadedAt))
    case Expire(keys) => s.(cache := s.cache - keys)
    case Leave(r) => s.(readers := s.readers - {r})
  }

  ghost predicate Start(s: System) {
    Init(s.core) && s.cache == map[] && s.readers == map[] && s.views == [s.core.rows]
  }

  ghost predicate Moves(engine: Engine, preparer: Preparer, regime: Regime, s: System, s': System)
    requires engine.Valid()
  {
    exists e :: CanHappen(engine, regime, s, e) && s' == Happen(engine, preparer, regime, s, e)
  }

  /** A history of the whole system, requests and lifecycle interleaved in any way. */
  ghost predicate IsHistory(engine: Engine, preparer: Preparer, regime: Regime, h: seq<System>)
    requires engine.Valid()
  {
    && h != [] && Start(h[0])
    && forall i :: 0 < i < |h| ==> Moves(engine, preparer, regime, h[i - 1], h[i])
  }

  // ---- the invariant

  ghost predicate GoodView(rows: Rows) {
    OwnedById(rows) && KeyedById(rows)
  }

  /** From one view to a later one. */
  predicate Later(rows: Rows, rows': Rows) {
    rows.revision <= rows'.revision && (rows.revision == rows'.revision ==> SameCorpus(rows, rows'))
  }

  ghost predicate ViewsOk(s: System) {
    && s.views != [] && s.views[s.Now()] == s.core.rows
    && (forall i :: 0 <= i < |s.views| ==> GoodView(s.views[i]))
    && (forall i, k :: 0 <= i <= k < |s.views| ==> Later(s.views[i], s.views[k]))
  }

  /** A candidate whose document, as uploaded, passes the filters. */
  predicate Admitted(log: Log, filters: SearchFilters, c: ChunkId) {
    c.documentId in log.catalog && Passes(filters, c.documentId, log.catalog[c.documentId].mediaType)
  }

  predicate AllAdmitted(log: Log, filters: SearchFilters, hits: Hits) {
    forall i :: 0 <= i < |hits| ==> Admitted(log, filters, hits[i].chunkId)
  }

  /** What a keyword search under the key returns if it queries one view and loads from another. */
  ghost predicate IsKeywordSearch(engine: Engine, found: Rows, loaded: Rows, key: CacheKey, execution: SearchExecution)
  {
    key.limit >= 1
    && exists answer :: IsKeywordAnswer(engine, found, key.query, key.limit * engine.candidateMultiplier, FiltersOf(key), answer)
                        && execution == SearchExecution(key.query, KeywordMode, ResultsOf(loaded, Solo(KeywordMode, answer), key.limit))
  }

  ghost predicate ExecutionOk(engine: Engine, views: seq<Rows>, key: CacheKey, entry: Entry) {
    && entry.readAt <= entry.foundAt <= entry.loadedAt < |views|
    && views[entry.readAt].revision == key.revision
    && AllShown(views[entry.loadedAt], entry.execution)
    && AllPass(FiltersOf(key), entry.execution)
    && entry.execution.query == key.query != "" && entry.execution.mode == key.mode && key.limit >= 1
    && Ordered(key.mode, entry.execution.results)
    && (key.mode == KeywordMode ==>
          IsKeywordSearch(engine, views[entry.foundAt], views[entry.loadedAt], key, entry.execution))
  }

  ghost predicate KeyedOk(engine: Engine, views: seq<Rows>, reader: Reader, keyed: Keyed) {
    && reader.since <= keyed.readAt < |views|
    && keyed.key == KeyOf(engine, reader.request, views[keyed.readAt].revision)
  }

  ghost predicate MaybeOk(engine: Engine, views: seq<Rows>, reader: Reader, maybe: Option<Keyed>) {
    maybe.Some? ==> KeyedOk(engine, views, reader, maybe.value)
  }

  ghost predicate FoundOk(engine: Engine, views: seq<Rows>, log: Log, reader: Reader, maybe: Option<Keyed>, keyword: Hits, foundAt: nat) {
    && Check(reader.request).None?
    && reader.since <= foundAt < |views| && (maybe.Some? ==> maybe.value.readAt <= foundAt)
    && KeywordAnswered(engine, views[foundAt], reader.request, keyword)
    && AllAdmitted(log, reader.request.filters, keyword)
  }

  ghost predicate ResponseOk(views: seq<Rows>, reader: Reader, execution: SearchExecution, shownAt: nat) {
    && reader.since <= shownAt < |views|
    && AllShown(views[shownAt], execution)
    && AllPass(reader.request.filters, execution)
    && execution.query == NormalizeQuery(reader.request.query) && execution.mode == reader.request.mode
    && Ordered(reader.request.mode, execution.results)
  }

  ghost predicate ReaderOk(engine: Engine, views: seq<Rows>, log: Log, reader: Reader) {
    reader.since < |views| &&
    match reader.pc
    case ReadingRevision => true
    case GettingCached(keyed) => KeyedOk(engine, views, reader, keyed)
    case FindingKeyword(maybe) => MaybeOk(engine, views, reader, maybe)
    case FindingVector(maybe, keyword, foundAt) =>
      MaybeOk(engine, views, reader, maybe) && FoundOk(engine, views, log, reader, maybe, keyword, foundAt)
    case Loading(maybe, keyword, foundAt, vector) =>
      MaybeOk(engine, views, reader, maybe) && FoundOk(engine, views, log, reader, maybe, keyword, foundAt)
      && AllAdmitted(log, reader.request.filters, vector) && Numbered(vector)
    case Storing(key, entry) =>
      && KeyedOk(engine, views, reader, Keyed(key, entry.readAt))
      && ExecutionOk(engine, views, key, entry)
    case Returned(outcome, shownAt) =>
      match outcome
      case Success(execution) => ResponseOk(views, reader, execution, shownAt)
      case Failure(error) => Explains(reader.request, error)
  }

  ghost predicate CacheOk(engine: Engine, views: seq<Rows>, cache: map<CacheKey, Entry>) {
    forall key :: key in cache ==> ExecutionOk(engine, views, key, cache[key])
  }

  ghost predicate ReadersOk(engine: Engine, views: seq<Rows>, log: Log, readers: map<ReaderId, Reader>) {
    forall r :: r in readers ==> ReaderOk(engine, views, log, readers[r])
  }

  ghost predicate SystemOk(engine: Engine, preparer: Preparer, s: System) {
    && Safe(preparer, s.core)
    && ViewsOk(s)
    && CacheOk(engine, s.views, s.cache)
    && ReadersOk(engine, s.views, s.core.log, s.readers)
  }

  // ---- lifecycle steps

  lemma SafeView(preparer: Preparer, s: State)
    requires Safe(preparer, s)
    ensures GoodView(s.rows)
  {
    hide FilesOk, PointsOk, ProcessesOk, DocumentsOk, JobsOk, UniqueHashes, Expected, AllStored;
    forall c | c in s.rows.chunks ensures s.rows.chunks[c].id == c && s.rows.chunks[c].documentId == c.documentId {
      assert ChunkOk(s.rows, s.log, c);
      assert EntryOk(preparer, s.rows, s.log, s.used, c.documentId);
      ExpectedIds(preparer, s.log.catalog[c.documentId], c);
    }
  }

  lemma ExpectedIds(preparer: Preparer, upload: Document, c: ChunkId)
    requires c in Expected(preparer, upload)
    ensures Expected(preparer, upload)[c].id == c
  {
  }

  lemma ViewsGrow(s: System, rows: Rows)
    requires ViewsOk(s) && GoodView(rows) && Accounted(s.core.rows, rows)
    ensures forall i :: 0 <= i < |s.views| ==> Later(s.views[i], rows)
  {
    hide GoodView, ReadyDocuments, ReadyChunks, BecomesReady, EntersDeleting;
    forall i | 0 <= i < |s.views| ensures Later(s.views[i], rows) {
      assert Later(s.views[i], s.views[s.Now()]);
    }
  }

  lemma ViewsExtended(s: System, s': System)
    requires ViewsOk(s) && s'.views == s.views + [s'.core.rows] && GoodView(s'.core.rows)
    requires forall i :: 0 <= i < |s.views| ==> Later(s.views[i], s'.core.rows)
    ensures ViewsOk(s')
  {
    hide GoodView, SameCorpus;
    var rows := s'.core.rows;
    forall i, k | 0 <= i <= k < |s'.views| ensures Later(s'.views[i], s'.views[k]) {
      if k < |s.views| { assert Later(s.views[i], s.views[k]); }
      else if i < |s.views| { assert Later(s.views[i], rows); }
      else { LaterThanItself(rows); }
    }
  }

  lemma LaterThanItself(rows: Rows)
    ensures Later(rows, rows)
  {
  }

  /** More views and a grown catalog disturb no entry and no reader. */
  lemma EntryKept(engine: Engine, views: seq<Rows>, more: seq<Rows>, key: CacheKey, entry: Entry)
    requires ExecutionOk(engine, views, key, entry)
    ensures ExecutionOk(engine, views + more, key, entry)
  {
    hide AllShown, AllPass, IsKeywordSearch;
  }

  predicate CatalogKept(log: Log, log': Log) {
    forall d :: d in log.catalog ==> d in log'.catalog && log'.catalog[d] == log.catalog[d]
  }

  lemma AdmittedKept(log: Log, log': Log, filters: SearchFilters, hits: Hits)
    requires CatalogKept(log, log') && AllAdmitted(log, filters, hits)
    ensures AllAdmitted(log', filters, hits)
  {
    hide Passes;
    forall i | 0 <= i < |hits| ensures Admitted(log', filters, hits[i].chunkId) {
      assert Admitted(log, filters, hits[i].chunkId);
    }
  }

  lemma ReaderKept(engine: Engine, views: seq<Rows>, more: seq<Rows>, log: Log, log': Log, reader: Reader)
    requires ReaderOk(engine, views, log, reader) && CatalogKept(log, log')
    ensures ReaderOk(engine, views + more, log', reader)
  {
    hide AllShown, AllPass, IsKeywordSearch, AllAdmitted, KeyOf, KeywordAnswered, CatalogKept, Check, NormalizeQuery;
    match reader.pc
    case FindingVector(maybe, keyword, foundAt) => AdmittedKept(log, log', reader.request.filters, keyword);
    case Loading(maybe, keyword, foundAt, vector) =>
      AdmittedKept(log, log', reader.request.filters, keyword);
      AdmittedKept(log, log', reader.request.filters, vector);
    case Storing(key, entry) => EntryKept(engine, views, more, key, entry);
    case _ =>
  }

  lemma StepKeepsCatalog(preparer: Preparer, regime: Regime, s: State, a: Action)
    requires Enabled(regime, s, a) && Safe(preparer, s)
    ensures CatalogKept(s.log, Apply(preparer, regime, s, a).log)
  {
    hide Enabled, Apply, Safe;
    forall d | d in s.log.catalog
      ensures d in Apply(preparer, regime, s, a).log.catalog && Apply(preparer, regime, s, a).log.catalog[d] == s.log.catalog[d]
    {
      StepFixesCatalog(preparer, regime, s, a, d);
    }
  }

  lemma CoreStepKeepsOk(engine: Engine, preparer: Preparer, regime: Regime, s: System, a: Action)
    requires engine.Valid() && SystemOk(engine, preparer, s) && Enabled(regime, s.core, a)
    ensures SystemOk(engine, preparer, Happen(engine, preparer, regime, s, CoreStep(a)))
  {
    hide Enabled, Apply, Safe, ViewsOk, ReaderOk, ExecutionOk, GoodView, Accounted, CatalogKept;
    var core := Apply(preparer, regime, s.core, a);
    var s' := s.(core := core, views := s.views + [core.rows]);
    StepKeepsSafe(preparer, regime, s.core, a);
    SafeView(preparer, core);
    StepIsAccounted(preparer, regime, s.core, a);
    ViewsGrow(s, core.rows);
    ViewsExtended(s, s');
    StepKeepsCatalog(preparer, regime, s.core, a);
    forall key | key in s'.cache ensures ExecutionOk(engine, s'.views, key, s'.cache[key]) {
      EntryKept(engine, s.views, [core.rows], key, s.cache[key]);
    }
    forall r | r in s'.readers ensures ReaderOk(engine, s'.views, s'.core.log, s'.readers[r]) {
      ReaderKept(engine, s.views, [core.rows], s.core.log, core.log, s.readers[r]);
    }
  }

  // ---- reader steps

  /** A reader moves; cache, tables and views stay. */
  lemma ReaderMoves(engine: Engine, preparer: Preparer, s: System, r: ReaderId, pc: ReaderPc)
    requires SystemOk(engine, preparer, s) && At(s, r)
    requires ReaderOk(engine, s.views, s.core.log, s.readers[r].(pc := pc))
    ensures SystemOk(engine, preparer, s.To(r, pc))
  {
    hide Safe, ReaderOk, CacheOk, GoodView;
  }

  lemma ReaderIsOk(engine: Engine, preparer: Preparer, s: System, r: ReaderId)
    requires SystemOk(engine, preparer, s) && At(s, r)
    ensures ReaderOk(engine, s.views, s.core.log, s.readers[r]) && s.views != [] && s.Now() < |s.views|
    ensures s.views[s.Now()] == s.core.rows
  {
    hide Safe, ReaderOk, CacheOk, GoodView;
  }

  lemma KeywordAdmitted(engine: Engine, preparer: Preparer, s: State, request: Request, answer: Hits)
    requires Safe(preparer, s) && request.limit >= 1 && KeywordAnswered(engine, s.rows, request, answer)
    ensures AllAdmitted(s.log, request.filters, answer)
  {
    hide Safe, Passes, RankOf, ComesBefore, NormalizeQuery;
    SafeView(preparer, s);
    forall i | 0 <= i < |answer| ensures Admitted(s.log, request.filters, answer[i].chunkId) {
      var c := answer[i].chunkId;
      assert IsHit(engine, s.rows, NormalizeQuery(request.query), request.filters, c);
      DocumentFacts(preparer, s, c.documentId);
    }
  }

  lemma VectorAdmitted(engine: Engine, preparer: Preparer, s: State, request: Request, answer: Hits)
    requires Safe(preparer, s) && request.limit >= 1 && VectorAnswered(engine, s.points, request, answer)
    ensures AllAdmitted(s.log, request.filters, answer) && Numbered(answer)
  {
    hide RowsOk, LogOk, FilesOk, ProcessesOk, Passes;
    PointsAreExpected(s.points, s.log);
    forall i | 0 <= i < |answer| ensures Admitted(s.log, request.filters, answer[i].chunkId) {
      assert PointPasses(s.points, request.filters, answer[i].chunkId);
      assert PointOk(s.points, s.log, answer[i].chunkId);
    }
  }

  lemma RankedAreAdmitted(engine: Engine, log: Log, filters: SearchFilters, mode: SearchMode, keyword: Hits, vector: Hits, ranked: Ranked)
    requires engine.Valid() && IsRanking(engine, mode, keyword, vector, ranked)
    requires AllAdmitted(log, filters, keyword) && AllAdmitted(log, filters, vector)
    ensures forall i :: 0 <= i < |ranked| ==> Admitted(log, filters, ranked[i].chunkId)
  {
    hide Admitted, Score, LastRank, SortedBy, Lists;
    forall i | 0 <= i < |ranked| ensures Admitted(log, filters, ranked[i].chunkId) {
      match mode {
        case KeywordMode => assert ranked[i].chunkId == keyword[i].chunkId;
        case VectorMode => assert ranked[i].chunkId == vector[i].chunkId;
        case HybridMode =>
          assert IsFused(ranked[i], keyword, vector, engine.rrfK);
      }
    }
  }

  lemma LoadedResultPasses(preparer: Preparer, s: State, filters: SearchFilters, ranked: Ranked, p: nat, result: SearchResult)
    requires Safe(preparer, s) && ShownAt(s.rows, ranked, p, result) && Admitted(s.log, filters, ranked[p].chunkId)
    ensures ResultPasses(filters, result)
  {
    hide Safe;
    SafeView(preparer, s);
    DocumentFacts(preparer, s, ranked[p].chunkId.documentId);
  }

  /** Hydration rechecks no filter and need not: media type and owner of a chunk never change. */
  lemma LoadedPass(preparer: Preparer, s: State, request: Request, ranked: Ranked)
    requires Safe(preparer, s) && request.limit >= 1
    requires forall i :: 0 <= i < |ranked| ==> Admitted(s.log, request.filters, ranked[i].chunkId)
    ensures AllShown(s.rows, ExecutionOf(request, s.rows, ranked))
    ensures AllPass(request.filters, ExecutionOf(request, s.rows, ranked))
  {
    hide Safe, ResultsOf, Admitted, Ascending, ResultPasses;
    SafeView(preparer, s);
    ExecutionIsShown(request, s.rows, ranked);
    var results := ResultsOf(s.rows, ranked, request.limit);
    var positions := ResultsAreFirstVisible(s.rows, ranked, request.limit);
    forall i | 0 <= i < |results| ensures ResultPasses(request.filters, results[i]) {
      assert ShownAt(s.rows, ranked, positions[i], results[i]);
      LoadedResultPasses(preparer, s, request.filters, ranked, positions[i], results[i]);
    }
  }

  lemma KeywordSearchOfRequest(engine: Engine, found: Rows, loaded: Rows, request: Request, revision: nat, keyword: Hits, vector: Hits, ranked: Ranked)
    requires engine.Valid() && request.limit >= 1 && request.mode == KeywordMode
    requires KeywordAnswered(engine, found, request, keyword) && IsRanking(engine, request.mode, keyword, vector, ranked)
    ensures IsKeywordSearch(engine, found, loaded, KeyOf(engine, request, revision), ExecutionOf(request, loaded, ranked))
  {
    hide ResultsOf;
    SourceIsSolo(request.mode, keyword, ranked);
    AnswerOfSameFilters(engine, found, NormalizeQuery(request.query), request.limit * engine.candidateMultiplier, request, revision, keyword);
  }

  lemma AnswerOfSameFilters(engine: Engine, rows: Rows, query: string, limit: nat, request: Request, revision: nat, answer: Hits)
    ensures IsKeywordAnswer(engine, rows, query, limit, request.filters, answer)
            <==> IsKeywordAnswer(engine, rows, query, limit, FiltersOf(KeyOf(engine, request, revision)), answer)
  {
    hide KeyOf, IsVisible, RankOf, ComesBefore;
    var filters := FiltersOf(KeyOf(engine, request, revision));
    forall c ensures IsHit(engine, rows, query, request.filters, c) <==> IsHit(engine, rows, query, filters, c) {
      if IsVisible(rows, c) {
        assert c in rows.chunks && rows.chunks[c].documentId in rows.docs by { VisibleHasRow(rows, c); }
        KeyFilters(engine, request, revision, rows.chunks[c].documentId, rows.docs[rows.chunks[c].documentId].mediaType);
      }
    }
    hide IsHit;
  }

  lemma VisibleHasRow(rows: Rows, c: ChunkId)
    requires IsVisible(rows, c)
    ensures c in rows.chunks && rows.chunks[c].documentId in rows.docs
  {
  }

  lemma PassUnderKey(engine: Engine, request: Request, revision: nat, execution: SearchExecution)
    ensures AllPass(request.filters, execution) <==> AllPass(FiltersOf(KeyOf(engine, request, revision)), execution)
  {
    hide KeyOf;
    forall i | 0 <= i < |execution.results|
      ensures ResultPasses(request.filters, execution.results[i])
              <==> ResultPasses(FiltersOf(KeyOf(engine, request, revision)), execution.results[i])
    {
      KeyFilters(engine, request, revision, execution.results[i].citation.documentId, execution.results[i].mediaType);
    }
  }

  /** What a reader loads is shown and passes, as its candidates were admitted. */
  lemma LoadedExecution(engine: Engine, preparer: Preparer, s: System, r: ReaderId, ranked: Ranked)
    requires engine.Valid() && SystemOk(engine, preparer, s) && At(s, r) && s.readers[r].pc.Loading? && s.readers[r].request.limit >= 1
    requires IsRanking(engine, s.readers[r].request.mode, s.readers[r].pc.keyword, s.readers[r].pc.vector, ranked)
    ensures var request := s.readers[r].request;
            var execution := ExecutionOf(request, s.core.rows, ranked);
            AllShown(s.core.rows, execution) && AllPass(request.filters, execution) && Ordered(request.mode, execution.results)
  {
    hide SystemOk, IsRanking, ResultsOf, AllShown, AllPass, AllAdmitted, KeywordAnswered, NormalizeQuery, Ordered, Numbered;
    ReaderIsOk(engine, preparer, s, r);
    var request, pc := s.readers[r].request, s.readers[r].pc;
    CoreIsSafe(engine, preparer, s);
    RankedAreAdmitted(engine, s.core.log, request.filters, request.mode, pc.keyword, pc.vector, ranked);
    LoadedPass(preparer, s.core, request, ranked);
    LoadedOrder(engine, s.views[pc.foundAt], s.core.rows, request, pc.keyword, pc.vector, ranked);
  }

  lemma LoadedOrder(engine: Engine, found: Rows, loaded: Rows, request: Request, keyword: Hits, vector: Hits, ranked: Ranked)
    requires engine.Valid() && request.limit >= 1 && IsRanking(engine, request.mode, keyword, vector, ranked)
    requires KeywordAnswered(engine, found, request, keyword) && Numbered(vector)
    ensures Ordered(request.mode, ExecutionOf(request, loaded, ranked).results)
  {
    hide IsRanking, ResultsOf, IsKeywordAnswer, Ordered, RankedInOrder, Numbered, NormalizeQuery;
    RankingIsInOrder(engine, found, NormalizeQuery(request.query), request.limit * engine.candidateMultiplier, request.filters,
                     request.mode, keyword, vector, ranked);
    ResultsAreOrdered(loaded, ranked, request.limit, request.mode);
  }

  /** A search that used the cache has an entry to store. */
  lemma LoadedEntryIsOk(engine: Engine, preparer: Preparer, s: System, r: ReaderId, ranked: Ranked)
    requires engine.Valid() && SystemOk(engine, preparer, s) && At(s, r) && s.readers[r].pc.Loading? && s.readers[r].request.limit >= 1
    requires IsRanking(engine, s.readers[r].request.mode, s.readers[r].pc.keyword, s.readers[r].pc.vector, ranked)
    requires s.readers[r].pc.maybe.Some?
    ensures var keyed, entry := s.readers[r].pc.maybe.value,
                                Entry(ExecutionOf(s.readers[r].request, s.core.rows, ranked), s.readers[r].pc.maybe.value.readAt,
                                      s.readers[r].pc.foundAt, s.Now());
            KeyedOk(engine, s.views, s.readers[r], keyed) && ExecutionOk(engine, s.views, keyed.key, entry)
  {
    hide SystemOk, IsRanking, KeyOf, ResultsOf, AllShown, AllPass, AllAdmitted, KeywordAnswered, IsKeywordSearch, NormalizeQuery;
    ReaderIsOk(engine, preparer, s, r);
    LoadedExecution(engine, preparer, s, r, ranked);
    var request, pc := s.readers[r].request, s.readers[r].pc;
    var revision := s.views[pc.maybe.value.readAt].revision;
    PassUnderKey(engine, request, revision, ExecutionOf(request, s.core.rows, ranked));
    if request.mode == KeywordMode {
      KeywordSearchOfRequest(engine, s.views[pc.foundAt], s.core.rows, request, revision, pc.keyword, pc.vector, ranked);
    }
    KeyFields(engine, request, revision);
  }

  lemma LoadKeepsOk(engine: Engine, preparer: Preparer, regime: Regime, s: System, r: ReaderId, ranked: Ranked)
    requires engine.Valid() && SystemOk(engine, preparer, s) && CanHappen(engine, regime, s, LoadResults(r, ranked))
    ensures SystemOk(engine, preparer, Happen(engine, preparer, regime, s, LoadResults(r, ranked)))
  {
    hide SystemOk, IsRanking, ExecutionOk, FoundOk, MaybeOk, ResultsOf, AllShown, AllPass, Check, KeyOf;
    ReaderIsOk(engine, preparer, s, r);
    var request, pc := s.readers[r].request, s.readers[r].pc;
    ChecksGiveLimit(request);
    var execution := ExecutionOf(request, s.core.rows, ranked);
    if pc.maybe.Some? {
      LoadedEntryIsOk(engine, preparer, s, r, ranked);
      var keyed := pc.maybe.value;
      ReaderMoves(engine, preparer, s, r, Storing(keyed.key, Entry(execution, keyed.readAt, pc.foundAt, s.Now())));
    } else {
      LoadedExecution(engine, preparer, s, r, ranked);
      ReaderMoves(engine, preparer, s, r, Returned(Success(execution), s.Now()));
    }
  }

  lemma CoreIsSafe(engine: Engine, preparer: Preparer, s: System)
    requires SystemOk(engine, preparer, s)
    ensures Safe(preparer, s.core)
  {
  }

  lemma KeyFields(engine: Engine, request: Request, revision: nat)
    ensures var key := KeyOf(engine, request, revision);
            && key.query == NormalizeQuery(request.query) && key.mode == request.mode
            && key.limit == request.limit && key.revision == revision
  {
  }

  lemma ShownInBoth(rows: Rows, rows': Rows, execution: SearchExecution)
    requires SameCorpus(rows, rows') && GoodView(rows) && GoodView(rows') && AllShown(rows, execution)
    ensures AllShown(rows', execution)
  {
    hide SameCorpus, OwnedById;
    forall i | 0 <= i < |execution.results| ensures Shows(rows', execution.results[i]) {
      assert Shows(rows, execution.results[i]);
      VisibleInBoth(rows, rows', execution.results[i].citation.chunkId);
      assert KeyedById(rows');
    }
  }

  /** Between two views of the same revision the revision has not moved. */
  lemma SameRevisionBetween(s: System, i: nat, m: nat, k: nat)
    requires ViewsOk(s) && i <= m <= k < |s.views| && s.views[i].revision == s.views[k].revision
    ensures SameCorpus(s.views[m], s.views[k]) && GoodView(s.views[m]) && GoodView(s.views[k])
  {
    hide GoodView, SameCorpus;
    assert Later(s.views[i], s.views[m]) && Later(s.views[m], s.views[k]);
  }

  /** A hit is as good as a search: its passages were visible when the entry was loaded, if that was
      during this request, and otherwise when this request read the revision. */
  lemma HitIsShown(engine: Engine, preparer: Preparer, s: System, r: ReaderId)
    requires SystemOk(engine, preparer, s) && At(s, r) && s.readers[r].pc.GettingCached?
    requires s.readers[r].pc.keyed.key in s.cache
    ensures var keyed := s.readers[r].pc.keyed;
            var entry := s.cache[keyed.key];
            ResponseOk(s.views, s.readers[r], entry.execution, if entry.loadedAt >= keyed.readAt then entry.loadedAt else keyed.readAt)
  {
    hide Safe, ReadersOk, AllShown, AllPass, IsKeywordSearch, KeyOf, NormalizeQuery;
    ReaderIsOk(engine, preparer, s, r);
    var reader := s.readers[r];
    var keyed := reader.pc.keyed;
    var entry := s.cache[keyed.key];
    assert ExecutionOk(engine, s.views, keyed.key, entry);
    hide CacheOk;
    var revision := s.views[keyed.readAt].revision;
    KeyFields(engine, reader.request, revision);
    PassUnderKey(engine, reader.request, revision, entry.execution);
    if entry.loadedAt < keyed.readAt {
      SameRevisionBetween(s, entry.readAt, entry.loadedAt, keyed.readAt);
      ShownInBoth(s.views[entry.loadedAt], s.views[keyed.readAt], entry.execution);
    }
  }

  lemma StoreKeepsOk(engine: Engine, preparer: Preparer, regime: Regime, s: System, r: ReaderId, stored: bool)
    requires engine.Valid() && SystemOk(engine, preparer, s) && CanHappen(engine, regime, s, StoreResult(r, stored))
    ensures SystemOk(engine, preparer, Happen(engine, preparer, regime, s, StoreResult(r, stored)))
  {
    hide Safe, ViewsOk, AllShown, AllPass, IsKeywordSearch, KeyOf, NormalizeQuery, ReadersOk;
    ReaderIsOk(engine, preparer, s, r);
    var reader := s.readers[r];
    var pc := reader.pc;
    var revision := s.views[pc.entry.readAt].revision;
    KeyFields(engine, reader.request, revision);
    PassUnderKey(engine, reader.request, revision, pc.entry.execution);
    var s' := if stored then s.(cache := s.cache[pc.key := pc.entry]) else s;
    assert SystemOk(engine, preparer, s') by { CacheStored(engine, preparer, s, pc.key, pc.entry); }
    ReaderMoves(engine, preparer, s', r, Returned(Success(pc.entry.execution), pc.entry.loadedAt));
  }

  lemma CacheStored(engine: Engine, preparer: Preparer, s: System, key: CacheKey, entry: Entry)
    requires SystemOk(engine, preparer, s) && ExecutionOk(engine, s.views, key, entry)
    ensures SystemOk(engine, preparer, s.(cache := s.cache[key := entry]))
  {
    hide Safe, ExecutionOk, ReadersOk, GoodView, Later;
  }

  lemma KeywordKeepsOk(engine: Engine, preparer: Preparer, regime: Regime, s: System, r: ReaderId, answer: Hits)
    requires engine.Valid() && SystemOk(engine, preparer, s) && CanHappen(engine, regime, s, FindKeyword(r, answer))
    ensures SystemOk(engine, preparer, Happen(engine, preparer, regime, s, FindKeyword(r, answer)))
  {
    hide SystemOk, KeywordAnswered, Check, ReaderOk;
    var check := Check(s.readers[r].request);
    if check.Some? {
      ReaderFails(engine, preparer, s, r, check.value) by { CheckExplains(s.readers[r].request); }
    } else {
      ChecksGiveLimit(s.readers[r].request);
      KeywordHitsKeepOk(engine, preparer, s, r, answer);
    }
  }

  lemma KeywordHitsKeepOk(engine: Engine, preparer: Preparer, s: System, r: ReaderId, answer: Hits)
    requires SystemOk(engine, preparer, s) && At(s, r) && s.readers[r].pc.FindingKeyword? && Check(s.readers[r].request).None?
    requires s.readers[r].request.limit >= 1 && KeywordAnswered(engine, s.core.rows, s.readers[r].request, answer)
    ensures SystemOk(engine, preparer, KeywordFound(s, r, answer))
  {
    hide SystemOk, AllAdmitted, KeywordAnswered, KeyOf, Check;
    ReaderIsOk(engine, preparer, s, r);
    CoreIsSafe(engine, preparer, s);
    var reader := s.readers[r];
    KeywordAdmitted(engine, preparer, s.core, reader.request, answer);
    ReaderMoves(engine, preparer, s, r, FindingVector(reader.pc.maybe, answer, s.Now()));
  }

  /** A request ends with an error that explains itself. */
  lemma ReaderFails(engine: Engine, preparer: Preparer, s: System, r: ReaderId, error: SearchError)
    requires SystemOk(engine, preparer, s) && At(s, r) && Explains(s.readers[r].request, error)
    ensures SystemOk(engine, preparer, s.To(r, Returned(Failure(error), s.Now())))
  {
    hide SystemOk, Explains, KeyedOk, MaybeOk, FoundOk, ExecutionOk, ResponseOk, AllAdmitted;
    ReaderIsOk(engine, preparer, s, r);
    ReaderMoves(engine, preparer, s, r, Returned(Failure(error), s.Now()));
  }

  lemma CheckExplains(request: Request)
    ensures match Check(request)
            case Some(error) => Explains(request, error)
            case None => !IsBlank(request.query) && request.limit >= 1
  {
    QueryNormalization(request.query, request.query);
    hide IsBlank, NormalizeQuery;
  }

  lemma ChecksGiveLimit(request: Request)
    requires Check(request).None?
    ensures request.limit >= 1
  {
  }

  lemma VectorKeepsOk(engine: Engine, preparer: Preparer, regime: Regime, s: System, r: ReaderId, answer: Result<Hits, SearchError>)
    requires engine.Valid() && SystemOk(engine, preparer, s) && CanHappen(engine, regime, s, FindVector(r, answer))
    ensures SystemOk(engine, preparer, Happen(engine, preparer, regime, s, FindVector(r, answer)))
  {
    hide SystemOk, VectorAnswered, Check, ReaderOk;
    ChecksGiveLimit(s.readers[r].request);
    match answer
    case Success(hits) => VectorHitsKeepOk(engine, preparer, s, r, hits);
    case Failure(error) =>
      CheckExplains(s.readers[r].request);
      ReaderFails(engine, preparer, s, r, error);
  }

  lemma VectorHitsKeepOk(engine: Engine, preparer: Preparer, s: System, r: ReaderId, hits: Hits)
    requires SystemOk(engine, preparer, s) && At(s, r) && s.readers[r].pc.FindingVector?
    requires s.readers[r].request.limit >= 1 && VectorAnswered(engine, s.core.points, s.readers[r].request, hits)
    ensures SystemOk(engine, preparer, VectorFound(s, r, Success(hits)))
  {
    hide SystemOk, AllAdmitted, KeywordAnswered, VectorAnswered, KeyOf, Check;
    ReaderIsOk(engine, preparer, s, r);
    CoreIsSafe(engine, preparer, s);
    var reader := s.readers[r];
    VectorAdmitted(engine, preparer, s.core, reader.request, hits);
    ReaderMoves(engine, preparer, s, r, Loading(reader.pc.maybe, reader.pc.keyword, reader.pc.foundAt, hits));
  }

  lemma OtherEventsKeepOk(engine: Engine, preparer: Preparer, regime: Regime, s: System, e: Event)
    requires engine.Valid() && SystemOk(engine, preparer, s) && CanHappen(engine, regime, s, e)
    requires e.Begin? || e.Expire? || e.Leave?
    ensures SystemOk(engine, preparer, Happen(engine, preparer, regime, s, e))
  {
    hide Safe, ExecutionOk, GoodView, Later, KeyedOk, FoundOk, ResponseOk;
  }

  lemma RevisionKeepsOk(engine: Engine, preparer: Preparer, regime: Regime, s: System, r: ReaderId)
    requires engine.Valid() && SystemOk(engine, preparer, s) && CanHappen(engine, regime, s, ReadRevision(r))
    ensures SystemOk(engine, preparer, Happen(engine, preparer, regime, s, ReadRevision(r)))
  {
    hide SystemOk, KeyOf;
    ReaderIsOk(engine, preparer, s, r);
    ReaderMoves(engine, preparer, s, r, GettingCached(Keyed(KeyOf(engine, s.readers[r].request, s.core.rows.revision), s.Now())));
  }

  lemma GetKeepsOk(engine: Engine, preparer: Preparer, regime: Regime, s: System, r: ReaderId, found: bool)
    requires engine.Valid() && SystemOk(engine, preparer, s) && CanHappen(engine, regime, s, GetCached(r, found))
    ensures SystemOk(engine, preparer, Happen(engine, preparer, regime, s, GetCached(r, found)))
  {
    hide SystemOk, KeyOf, AllShown, AllPass, NormalizeQuery;
    ReaderIsOk(engine, preparer, s, r);
    var keyed := s.readers[r].pc.keyed;
    if found {
      HitIsShown(engine, preparer, s, r);
      var entry := s.cache[keyed.key];
      ReaderMoves(engine, preparer, s, r, Returned(Success(entry.execution), if entry.loadedAt >= keyed.readAt then entry.loadedAt else keyed.readAt));
    } else {
      ReaderMoves(engine, preparer, s, r, FindingKeyword(Some(keyed)));
    }
  }

  lemma EventKeepsOk(engine: Engine, preparer: Preparer, regime: Regime, s: System, e: Event)
    requires engine.Valid() && SystemOk(engine, preparer, s) && CanHappen(engine, regime, s, e)
    ensures SystemOk(engine, preparer, Happen(engine, preparer, regime, s, e))
  {
    hide SystemOk;
    match e
    case CoreStep(a) => CoreStepKeepsOk(engine, preparer, regime, s, a);
    case ReadRevision(r) => RevisionKeepsOk(engine, preparer, regime, s, r);
    case GetCached(r, found) => GetKeepsOk(engine, preparer, regime, s, r, found);
    case FindKeyword(r, answer) => KeywordKeepsOk(engine, preparer, regime, s, r, answer);
    case FindVector(r, answer) => VectorKeepsOk(engine, preparer, regime, s, r, answer);
    case LoadResults(r, ranked) => LoadKeepsOk(engine, preparer, regime, s, r, ranked);
    case StoreResult(r, stored) => StoreKeepsOk(engine, preparer, regime, s, r, stored);
    case _ => OtherEventsKeepOk(engine, preparer, regime, s, e);
  }

  lemma {:induction false} HistoriesAreOk(engine: Engine, preparer: Preparer, regime: Regime, h: seq<System>, i: nat)
    requires engine.Valid() && IsHistory(engine, preparer, regime, h) && i < |h|
    ensures SystemOk(engine, preparer, h[i])
  {
    hide SystemOk, CanHappen, Happen;
    if i == 0 {
      StartIsOk(engine, preparer, h[0]);
    } else {
      HistoriesAreOk(engine, preparer, regime, h, i - 1);
      var s, s' := h[i - 1], h[i];
      assert Moves(engine, preparer, regime, s, s');
      var e :| CanHappen(engine, regime, s, e) && s' == Happen(engine, preparer, regime, s, e);
      EventKeepsOk(engine, preparer, regime, s, e);
    }
  }

  lemma StartIsOk(engine: Engine, preparer: Preparer, s: System)
    requires Start(s)
    ensures SystemOk(engine, preparer, s)
  {
    InitIsSafe(preparer, s.core);
    SafeView(preparer, s.core);
    hide Safe, GoodView;
    LaterThanItself(s.core.rows);
  }

  // ---- the guarantees

  /** Under every interleaving, every response, hit or miss, in every mode: all its passages were
      visible together at one instant between the request's start and its return, belonging to READY
      documents with exactly that text, all of them pass the request's own filters, and they stand in
      the order of their mode. A request
      that fails has a blank query or a limit below one, or got past these checks and failed at the
      vector query its mode makes. */
  lemma ResponsesAreCurrent(engine: Engine, preparer: Preparer, regime: Regime, h: seq<System>, i: nat, r: ReaderId)
    requires engine.Valid() && IsHistory(engine, preparer, regime, h) && i < |h|
    requires r in h[i].readers && h[i].readers[r].pc.Returned?
    ensures var s, reader := h[i], h[i].readers[r];
            match reader.pc.outcome
            case Success(execution) =>
              && AllPass(reader.request.filters, execution) && Ordered(reader.request.mode, execution.results)
              && exists k :: reader.since <= k < |s.views| && AllShown(s.views[k], execution)
            case Failure(error) => Explains(reader.request, error)
  {
    hide SystemOk, AllShown, AllPass, Ordered, Explains;
    HistoriesAreOk(engine, preparer, regime, h, i);
    ReaderIsOk(engine, preparer, h[i], r);
  }

  /** What the uncached search returns when nothing changes while it runs. */
  ghost predicate IsFreshSearch(engine: Engine, s: State, request: Request, execution: SearchExecution)
    requires engine.Valid()
  {
    && Check(request).None?
    && exists keyword, vector ::
         && KeywordAnswered(engine, s.rows, request, keyword)
         && VectorAnswered(engine, s.points, request, vector)
         && IsExecution(engine, request, keyword, vector, s.rows, execution)
  }

  lemma KeywordSearchInBoth(engine: Engine, found: Rows, loaded: Rows, rows: Rows, key: CacheKey, execution: SearchExecution)
    requires SameCorpus(found, rows) && SameCorpus(loaded, rows) && GoodView(found) && GoodView(loaded) && GoodView(rows)
    requires IsKeywordSearch(engine, found, loaded, key, execution)
    ensures IsKeywordSearch(engine, rows, rows, key, execution)
  {
    hide SameCorpus, OwnedById, IsKeywordAnswer, LoadChunks;
    var answer :| IsKeywordAnswer(engine, found, key.query, key.limit * engine.candidateMultiplier, FiltersOf(key), answer)
                  && execution == SearchExecution(key.query, KeywordMode, ResultsOf(loaded, Solo(KeywordMode, answer), key.limit));
    AnswerInBoth(engine, found, rows, key.query, key.limit * engine.candidateMultiplier, FiltersOf(key), answer);
    LoadInBoth(loaded, rows, RankedIds(Solo(KeywordMode, answer)));
  }

  /** Keyword searches of one state under one key return the same. */
  lemma FreshIsUnique(engine: Engine, s: State, request: Request, revision: nat, a: SearchExecution, b: SearchExecution)
    requires engine.Valid() && request.mode == KeywordMode
    requires IsKeywordSearch(engine, s.rows, s.rows, KeyOf(engine, request, revision), a)
    requires IsFreshSearch(engine, s, request, b)
    ensures a == b
  {
    hide IsKeywordAnswer, ResultsOf;
    var key := KeyOf(engine, request, revision);
    var limit := request.limit * engine.candidateMultiplier;
    var answer :| IsKeywordAnswer(engine, s.rows, key.query, limit, FiltersOf(key), answer)
                  && a == SearchExecution(key.query, KeywordMode, ResultsOf(s.rows, Solo(KeywordMode, answer), key.limit));
    var keyword, vector :| KeywordAnswered(engine, s.rows, request, keyword)
                           && VectorAnswered(engine, s.points, request, vector)
                           && IsExecution(engine, request, keyword, vector, s.rows, b);
    var ranked :| IsRanking(engine, request.mode, keyword, vector, ranked) && b == ExecutionOf(request, s.rows, ranked);
    SourceIsSolo(request.mode, keyword, ranked);
    AnswerOfSameFilters(engine, s.rows, key.query, limit, request, revision, keyword);
    KeywordAnswerIsUnique(engine, s.rows, key.query, limit, FiltersOf(key), answer, keyword);
  }

  lemma KeywordSearchIsFresh(engine: Engine, s: State, request: Request, revision: nat, execution: SearchExecution)
    requires engine.Valid() && request.mode == KeywordMode && Check(request).None?
    requires IsKeywordSearch(engine, s.rows, s.rows, KeyOf(engine, request, revision), execution)
    ensures IsFreshSearch(engine, s, request, execution)
  {
    hide IsKeywordAnswer, ResultsOf;
    var key := KeyOf(engine, request, revision);
    var limit := request.limit * engine.candidateMultiplier;
    var answer :| IsKeywordAnswer(engine, s.rows, key.query, limit, FiltersOf(key), answer)
                  && execution == SearchExecution(key.query, KeywordMode, ResultsOf(s.rows, Solo(KeywordMode, answer), key.limit));
    AnswerOfSameFilters(engine, s.rows, key.query, limit, request, revision, answer);
    var ranked := Solo(KeywordMode, answer);
    assert IsRanking(engine, KeywordMode, answer, [], ranked);
    assert execution == ExecutionOf(request, s.rows, ranked);
    assert KeywordAnswered(engine, s.rows, request, answer) && VectorAnswered(engine, s.points, request, []);
    assert IsExecution(engine, request, answer, [], s.rows, execution);
  }

  /** A keyword-mode hit under the current revision is exactly what the uncached search returns in
      this state, for whichever request with the same key made the entry. */
  lemma KeywordHitsAreFresh(engine: Engine, preparer: Preparer, regime: Regime, h: seq<System>, i: nat, r: ReaderId)
    requires engine.Valid() && IsHistory(engine, preparer, regime, h) && i < |h|
    requires r in h[i].readers && h[i].readers[r].pc.GettingCached? && h[i].readers[r].request.mode == KeywordMode
    requires var key := h[i].readers[r].pc.keyed.key; key in h[i].cache && h[i].core.rows.revision == key.revision
    ensures var s, request := h[i], h[i].readers[r].request;
            var cached := s.cache[s.readers[r].pc.keyed.key].execution;
            && IsKeywordPage(engine, s.core.rows, request, cached.results)
            && forall execution :: IsFreshSearch(engine, s.core, request, execution) <==> execution == cached
  {
    hide SystemOk, IsKeywordSearch, KeyOf, Check, AllShown, AllPass, IsFreshSearch, NormalizeQuery;
    HistoriesAreOk(engine, preparer, regime, h, i);
    var s := h[i];
    ReaderIsOk(engine, preparer, s, r);
    var request, keyed := s.readers[r].request, s.readers[r].pc.keyed;
    var revision := s.views[keyed.readAt].revision;
    KeyFields(engine, request, revision);
    EntryIsOk(engine, preparer, s, keyed.key);
    var entry := s.cache[keyed.key];
    SameRevisionBetween(s, entry.readAt, entry.foundAt, s.Now());
    SameRevisionBetween(s, entry.readAt, entry.loadedAt, s.Now());
    KeywordSearchInBoth(engine, s.views[entry.foundAt], s.views[entry.loadedAt], s.core.rows, keyed.key, entry.execution);
    ChecksPass(request);
    KeywordSearchIsFresh(engine, s.core, request, revision, entry.execution);
    assert GoodView(s.core.rows) by { NowIsGood(engine, preparer, s); }
    FreshIsPage(engine, s.core, request, entry.execution);
    forall execution | IsFreshSearch(engine, s.core, request, execution) ensures execution == entry.execution {
      FreshIsUnique(engine, s.core, request, revision, entry.execution, execution);
    }
  }

  lemma NowIsGood(engine: Engine, preparer: Preparer, s: System)
    requires SystemOk(engine, preparer, s)
    ensures GoodView(s.core.rows)
  {
    hide Safe, CacheOk, ReadersOk, GoodView, Later;
  }

  /** The uncached keyword search returns the page it promises. */
  lemma FreshIsPage(engine: Engine, s: State, request: Request, execution: SearchExecution)
    requires engine.Valid() && request.mode == KeywordMode && GoodView(s.rows) && IsFreshSearch(engine, s, request, execution)
    ensures IsKeywordPage(engine, s.rows, request, execution.results)
  {
    hide IsKeywordAnswer, IsKeywordPage, ResultsOf, IsRanking, NormalizeQuery;
    ChecksGiveLimit(request);
    var keyword, vector :| KeywordAnswered(engine, s.rows, request, keyword)
                           && VectorAnswered(engine, s.points, request, vector)
                           && IsExecution(engine, request, keyword, vector, s.rows, execution);
    var ranked :| IsRanking(engine, request.mode, keyword, vector, ranked) && execution == ExecutionOf(request, s.rows, ranked);
    KeywordSearchIsExact(engine, s.rows, request, keyword, vector, ranked);
  }

  lemma ChecksPass(request: Request)
    requires NormalizeQuery(request.query) != "" && request.limit >= 1
    ensures Check(request).None?
  {
  }

  lemma EntryIsOk(engine: Engine, preparer: Preparer, s: System, key: CacheKey)
    requires SystemOk(engine, preparer, s) && key in s.cache
    ensures ExecutionOk(engine, s.views, key, s.cache[key]) && ViewsOk(s)
  {
  }
}
