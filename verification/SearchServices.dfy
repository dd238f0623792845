/** CachedSearchService, and the SearchService below it, in the form of the program (cache.py,
    search.py). Between two steps of a request any number of steps of other requests and of the
    document lifecycle may happen. */
module SearchServices {
  import opened Results
  import opened Texts
  import opened Domain
  import opened Transactions
  import opened Lifecycle
  import opened LifecycleSafety
  import opened Sorting
  import opened Gains
  import opened Ranking
  import opened Search
  import opened CachedSearch

  // ---- keyword_candidates

  /** The elements of a set, listed in some order. */
  method Listed(ids: set<ChunkId>) returns (list: seq<ChunkId>)
    ensures Distinct(list) && forall c :: c in list <==> c in ids
  {
    list := [];
    var rest := ids;
    while rest != {}
      invariant Distinct(list) && rest <= ids
      invariant forall c :: c in list <==> c in ids && c !in rest
      decreases |rest|
    {
      var c :| c in rest;
      rest := rest - {c};
      list := list + [c];
    }
  }

  function Before(engine: Engine, rows: Rows, query: string): (ChunkId, ChunkId) -> bool {
    (a: ChunkId, b: ChunkId) => ComesBefore(engine, rows, query, a, b)
  }

  lemma BeforeIsPreorder(engine: Engine, rows: Rows, query: string)
    requires engine.Valid()
    ensures IsPreorder(Before(engine, rows, query))
  {
    hide RankOf;
    var leq := Before(engine, rows, query);
    forall a, b ensures leq(a, b) || leq(b, a) {
      assert engine.idLeq(a, b) || engine.idLeq(b, a);
    }
    forall a, b, c | leq(a, b) && leq(b, c) ensures leq(a, c) {
      assert engine.idLeq(a, b) && engine.idLeq(b, c) ==> engine.idLeq(a, c);
    }
  }

  /** `enumerate(rows, start=1)` */
  function Numbered(engine: Engine, rows: Rows, query: string, ids: seq<ChunkId>): (hits: Hits)
    ensures |hits| == |ids|
  {
    seq(|ids|, i requires 0 <= i < |ids| => RetrievalCandidate(ids[i], i + 1, RankOf(engine, rows, query, ids[i])))
  }

  /** `keyword_candidates`: the visible matching chunks, best first, cut at the limit. */
  method KeywordCandidates(engine: Engine, rows: Rows, query: string, limit: nat, filters: SearchFilters) returns (answer: Hits)
    requires engine.Valid()
    ensures IsKeywordAnswer(engine, rows, query, limit, filters, answer)
  {
    hide IsHit, RankOf, ComesBefore, SortBy, IsPreorder;
    var hits := set c | c in rows.chunks && IsHit(engine, rows, query, filters, c);
    HitsAreStored(engine, rows, query, filters);
    var list := Listed(hits);
    var sorted := SortBy(Before(engine, rows, query), list);
    BeforeIsPreorder(engine, rows, query);
    SortSorts(Before(engine, rows, query), list);
    SortKeepsElements(Before(engine, rows, query), list);
    SortedIsAnswer(engine, rows, query, limit, filters, list, sorted);
    answer := Numbered(engine, rows, query, Top(sorted, limit));
  }

  lemma HitsAreStored(engine: Engine, rows: Rows, query: string, filters: SearchFilters)
    ensures forall c :: IsHit(engine, rows, query, filters, c) ==> c in rows.chunks
  {
  }

  lemma SortedIsAnswer(engine: Engine, rows: Rows, query: string, limit: nat, filters: SearchFilters, list: seq<ChunkId>, sorted: seq<ChunkId>)
    requires SortedBy(Before(engine, rows, query), sorted) && multiset(sorted) == multiset(list) && Distinct(list)
    requires forall c :: c in list <==> IsHit(engine, rows, query, filters, c)
    ensures IsKeywordAnswer(engine, rows, query, limit, filters, Numbered(engine, rows, query, Top(sorted, limit)))
  {
    hide IsHit, RankOf, ComesBefore;
    SameElements(sorted, list);
    PermutedStaysDistinct(list, sorted);
    var first := Top(sorted, limit);
    var answer := Numbered(engine, rows, query, first);
    forall i, j | 0 <= i < j < |sorted| ensures ComesBefore(engine, rows, query, sorted[i], sorted[j]) {
      assert Before(engine, rows, query)(sorted[i], sorted[j]);
    }
    forall i | 0 <= i < |first| ensures Occurs(answer, sorted[i]) {
      assert answer[i].chunkId == sorted[i];
    }
    forall c | IsHit(engine, rows, query, filters, c) && !Occurs(answer, c)
      ensures |answer| == limit
      ensures forall i :: 0 <= i < |answer| ==> ComesBefore(engine, rows, query, answer[i].chunkId, c)
    {
      assert c in sorted;
      var k :| 0 <= k < |sorted| && sorted[k] == c;
    }
  }

  // ---- the service

  class CachedSearchService {
    const engine: Engine
    const preparer: Preparer
    const regime: Regime
    const ttlSeconds: nat

    // the shared lifecycle state, the cache, and where each request is
    var core: State
    var cache: map<CacheKey, Entry>
    var readers: map<ReaderId, Reader>
    var views: seq<Rows>
    ghost var history: seq<System>

    function Current(): System
      reads this
    {
      System(core, cache, readers, views)
    }

    ghost predicate Valid()
      reads this
    {
      engine.Valid() && IsHistory(engine, preparer, regime, history) && history[|history| - 1] == Current()
    }

    constructor (engine: Engine, preparer: Preparer, regime: Regime, ttlSeconds: nat, core: State)
      requires engine.Valid() && Init(core)
      ensures Valid() && this.ttlSeconds == ttlSeconds && this.engine == engine
    {
      this.engine, this.preparer, this.regime, this.ttlSeconds := engine, preparer, regime, ttlSeconds;
      this.core, cache, readers, views := core, map[], map[], [core.rows];
      new;
      history := [Current()];
    }

    lemma OkNow()
      requires Valid()
      ensures SystemOk(engine, preparer, Current())
    {
      hide SystemOk;
      HistoriesAreOk(engine, preparer, regime, history, |history| - 1);
    }

    ghost method Record(before: System, e: Event)
      requires engine.Valid() && IsHistory(engine, preparer, regime, history) && history[|history| - 1] == before
      requires CanHappen(engine, regime, before, e) && Current() == Happen(engine, preparer, regime, before, e)
      modifies this`history
      ensures Valid() && history == old(history) + [Current()]
    {
      HistoryExtends(engine, preparer, regime, history, e);
      history := history + [Current()];
    }

    /** Request r is under way and has come to `pc`. */
    ghost predicate At(r: ReaderId, request: Request, since: nat, pc: ReaderPc)
      reads this
    {
      Valid() && r in readers && readers[r] == Reader(request, since, pc)
    }

    method Open(r: ReaderId, request: Request, caching: bool)
      requires Valid() && r !in readers
      modifies this`readers, this`history
      ensures At(r, request, Current().Now(), if caching then ReadingRevision else FindingKeyword(None))
      ensures history == old(history) + [Current()] && OthersKept(r, old(readers))
    {
      hide IsHistory, SystemOk;
      OkNow();
      ghost var before := Current();
      ViewsAreThere(engine, preparer, before);
      readers := readers[r := Reader(request, Current().Now(), if caching then ReadingRevision else FindingKeyword(None))];
      Record(before, Begin(r, request, caching));
    }

    method ReadCorpusRevision(r: ReaderId)
      requires Valid() && r in readers && readers[r].pc.ReadingRevision?
      modifies this`readers, this`history
      ensures Valid() && history == old(history) + [Current()] && SameButFor(r, old(readers))
      ensures readers[r].pc.GettingCached?
    {
      hide IsHistory, KeyOf;
      ghost var before := Current();
      var key := KeyOf(engine, readers[r].request, core.rows.revision);
      readers := readers[r := readers[r].(pc := GettingCached(Keyed(key, Current().Now())))];
      Record(before, ReadRevision(r));
    }

    /** No request but r has moved. */
    ghost predicate OthersKept(r: ReaderId, earlier: map<ReaderId, Reader>)
      reads this`readers
    {
      forall q :: q != r ==> (q in readers <==> q in earlier) && (q in readers ==> readers[q] == earlier[q])
    }

    ghost predicate SameButFor(r: ReaderId, earlier: map<ReaderId, Reader>)
      reads this`readers
    {
      && OthersKept(r, earlier) && r in earlier && r in readers
      && readers[r].request == earlier[r].request && readers[r].since == earlier[r].since
    }

    /** The cache answers None for a missing or expired entry, and may fail to find one. */
    method GetFromCache(r: ReaderId) returns (cached: Option<SearchExecution>)
      requires Valid() && r in readers && readers[r].pc.GettingCached?
      modifies this`readers, this`history
      ensures Valid() && history == old(history) + [Current()] && SameButFor(r, old(readers))
      ensures cached.Some? ==> readers[r].pc.Returned? && readers[r].pc.outcome == Success(cached.value)
      ensures cached.None? ==> readers[r].pc.FindingKeyword?
    {
      hide IsHistory, KeyOf;
      ghost var before := Current();
      var keyed := readers[r].pc.keyed;
      var found: bool := *;
      found := found && keyed.key in cache;
      if found {
        var entry := cache[keyed.key];
        cached := Some(entry.execution);
        readers := readers[r := readers[r].(pc := Returned(Success(entry.execution),
                                                           if entry.loadedAt >= keyed.readAt then entry.loadedAt else keyed.readAt))];
      } else {
        cached := None;
        readers := readers[r := readers[r].(pc := FindingKeyword(Some(keyed)))];
      }
      Record(before, GetCached(r, found));
    }

    /** The checks and the keyword query of the search. */
    method QueryKeyword(r: ReaderId) returns (error: Option<SearchError>)
      requires Valid() && r in readers && readers[r].pc.FindingKeyword?
      modifies this`readers, this`history
      ensures Valid() && history == old(history) + [Current()] && SameButFor(r, old(readers))
      ensures error.Some? ==> readers[r].pc.Returned? && readers[r].pc.outcome == Failure(error.value)
      ensures error.None? ==> readers[r].pc.FindingVector?
    {
      hide IsHistory, IsKeywordAnswer, NormalizeQuery;
      ghost var before := Current();
      var request := readers[r].request;
      error := Check(request);
      var answer: Hits := [];
      if error.Some? {
        readers := readers[r := readers[r].(pc := Returned(Failure(error.value), Current().Now()))];
      } else {
        if request.mode in {KeywordMode, HybridMode} {
          answer := KeywordCandidates(engine, core.rows, NormalizeQuery(request.query), request.limit * engine.candidateMultiplier, request.filters);
        }
        readers := readers[r := readers[r].(pc := FindingVector(readers[r].pc.maybe, answer, Current().Now()))];
      }
      Record(before, FindKeyword(r, answer));
    }

    /** `_vector_candidates`: the embedding provider or the index may raise; otherwise whatever the
        index answers. */
    method QueryVector(r: ReaderId) returns (error: Option<SearchError>)
      requires Valid() && r in readers && readers[r].pc.FindingVector?
      modifies this`readers, this`history
      ensures Valid() && history == old(history) + [Current()] && SameButFor(r, old(readers))
      ensures error.Some? ==> readers[r].pc.Returned? && readers[r].pc.outcome == Failure(error.value)
      ensures error.None? ==> readers[r].pc.Loading?
    {
      hide IsHistory, SystemOk;
      OkNow();
      CheckedHere(r);
      ghost var before := Current();
      var request := readers[r].request;
      var answer: Result<Hits, SearchError> := VectorCandidates(request);
      match answer {
        case Success(hits) =>
          error := None;
          readers := readers[r := readers[r].(pc := Loading(readers[r].pc.maybe, readers[r].pc.keyword, readers[r].pc.foundAt, hits))];
        case Failure(raised) =>
          error := Some(raised);
          readers := readers[r := readers[r].(pc := Returned(Failure(raised), Current().Now()))];
      }
      Record(before, FindVector(r, answer));
    }

    method VectorCandidates(request: Request) returns (answer: Result<Hits, SearchError>)
      requires request.limit >= 1
      ensures match answer
              case Success(hits) => VectorAnswered(engine, core.points, request, hits)
              case Failure(error) => request.mode != KeywordMode && (error.EmbeddingError? || error.VectorIndexError?)
    {
      if request.mode !in {VectorMode, HybridMode} {
        return Success([]);
      }
      var embedded: bool := *;
      if !embedded {
        return Failure(EmbeddingError);
      }
      var hits: Hits := *;
      if !VectorAnswered(engine, core.points, request, hits) {
        return Failure(VectorIndexError);
      }
      return Success(hits);
    }

    lemma CheckedHere(r: ReaderId)
      requires SystemOk(engine, preparer, Current()) && r in readers
      requires readers[r].pc.FindingVector? || readers[r].pc.Loading?
      ensures Check(readers[r].request).None? && readers[r].request.limit >= 1
    {
      hide Safe, ViewsOk, CacheOk, AllAdmitted, KeywordAnswered, MaybeOk;
      assert ReaderOk(engine, views, core.log, readers[r]);
    }

    /** Ranking, hydration and the result loop. */
    method LoadAndAssemble(r: ReaderId) returns (execution: SearchExecution)
      requires Valid() && r in readers && readers[r].pc.Loading?
      modifies this`readers, this`history
      ensures Valid() && history == old(history) + [Current()] && SameButFor(r, old(readers))
      ensures readers[r].pc.Returned? || readers[r].pc.Storing?
      ensures readers[r].pc.Returned? ==> readers[r].pc.outcome == Success(execution)
      ensures readers[r].pc.Storing? ==> readers[r].pc.entry.execution == execution
    {
      hide IsHistory, SystemOk, IsRanking, LoadedResults, LoadChunks, NormalizeQuery;
      OkNow();
      CheckedHere(r);
      ghost var before := Current();
      var request, pc := readers[r].request, readers[r].pc;
      var ranked := Rank(engine, request.mode, pc.keyword, pc.vector);
      var chunks := LoadChunks(core.rows, RankedIds(ranked));
      var results := Assemble(ranked, chunks, request.limit);
      execution := SearchExecution(NormalizeQuery(request.query), request.mode, results);
      assert execution == ExecutionOf(request, core.rows, ranked);
      readers := readers[r := readers[r].(pc :=
        if pc.maybe.Some?
        then Storing(pc.maybe.value.key, Entry(execution, pc.maybe.value.readAt, pc.foundAt, Current().Now()))
        else Returned(Success(execution), Current().Now()))];
      Record(before, LoadResults(r, ranked));
    }

    method SetInCache(r: ReaderId)
      requires Valid() && r in readers && readers[r].pc.Storing?
      modifies this`readers, this`cache, this`history
      ensures Valid() && history == old(history) + [Current()] && SameButFor(r, old(readers))
      ensures readers[r].pc.Returned? && readers[r].pc.outcome == Success(old(readers)[r].pc.entry.execution)
    {
      hide IsHistory;
      ghost var before := Current();
      var pc := readers[r].pc;
      var stored: bool := *;
      if stored {
        cache := cache[pc.key := pc.entry];
      }
      readers := readers[r := readers[r].(pc := Returned(Success(pc.entry.execution), pc.entry.loadedAt))];
      Record(before, StoreResult(r, stored));
    }

    /** One step of another request. */
    method Advance(r: ReaderId)
      requires Valid() && r in readers
      modifies this`readers, this`cache, this`history
      ensures Valid() && old(history) <= history && OthersKept(r, old(readers))
    {
      hide IsHistory;
      match readers[r].pc {
        case ReadingRevision => ReadCorpusRevision(r);
        case GettingCached(_) => var _ := GetFromCache(r);
        case FindingKeyword(_) => var _ := QueryKeyword(r);
        case FindingVector(_, _, _) => var _ := QueryVector(r);
        case Loading(_, _, _, _) => var _ := LoadAndAssemble(r);
        case Storing(_, _) => SetInCache(r);
        case Returned(_, _) =>
          ghost var before := Current();
          readers := readers - {r};
          Record(before, Leave(r));
      }
    }

    /** One step of the lifecycle, if it is possible. */
    method StepCore(a: Action)
      requires Valid()
      modifies this`core, this`views, this`history
      ensures Valid() && old(history) <= history && old(views) <= views
    {
      hide IsHistory, Apply, Enabled;
      if Enabled(regime, core, a) {
        ghost var before := Current();
        core := Apply(preparer, regime, core, a);
        views := views + [core.rows];
        Record(before, CoreStep(a));
      }
    }

    method LoseEntries(keys: set<CacheKey>)
      requires Valid()
      modifies this`cache, this`history
      ensures Valid() && old(history) <= history
    {
      hide IsHistory;
      ghost var before := Current();
      cache := cache - keys;
      Record(before, Expire(keys));
    }

    /** Anything that does not concern request r, any number of times. */
    method Interfere(r: ReaderId)
      requires Valid()
      modifies this
      ensures Valid() && old(history) <= history && old(views) <= views
      ensures r in readers <==> r in old(readers)
      ensures r in readers ==> readers[r] == old(readers)[r]
    {
      hide IsHistory;
      var steps: int := *;
      for i := 0 to if steps >= 0 then steps else 0
        invariant Valid() && old(history) <= history && old(views) <= views
        invariant r in readers <==> r in old(readers)
        invariant r in readers ==> readers[r] == old(readers)[r]
      {
        var choice: int := *;
        var other: ReaderId := *;
        if choice == 0 {
          var a: Action := *;
          StepCore(a);
        } else if choice == 1 {
          var keys: set<CacheKey> := *;
          LoseEntries(keys);
        } else if other != r && other in readers {
          Advance(other);
        } else if other != r {
          var request: Request := *;
          var caching: bool := *;
          Open(other, request, caching);
        }
      }
    }

    /** SearchService.search, from its checks to its results. */
    method SearchUncached(r: ReaderId) returns (result: Result<SearchExecution, SearchError>)
      requires Valid() && r in readers && readers[r].pc.FindingKeyword?
      modifies this
      ensures Valid() && old(history) <= history && old(views) <= views && r in readers
      ensures readers[r].request == old(readers)[r].request && readers[r].since == old(readers)[r].since
      ensures readers[r].pc.Returned? ==> readers[r].pc.outcome == result
      ensures !readers[r].pc.Returned? ==> readers[r].pc.Storing? && result == Success(readers[r].pc.entry.execution)
    {
      hide IsHistory;
      var error := QueryKeyword(r);
      if error.Some? {
        return Failure(error.value);
      }
      Interfere(r);
      error := QueryVector(r);
      if error.Some? {
        return Failure(error.value);
      }
      Interfere(r);
      var execution := LoadAndAssemble(r);
      return Success(execution);
    }

    /** The search behind a miss, and the store of its result. */
    method SearchAndStore(r: ReaderId) returns (result: Result<SearchExecution, SearchError>)
      requires Valid() && r in readers && readers[r].pc.FindingKeyword?
      modifies this
      ensures Valid() && old(history) <= history && old(views) <= views && r in readers
      ensures readers[r].request == old(readers)[r].request && readers[r].since == old(readers)[r].since
      ensures readers[r].pc.Returned? && readers[r].pc.outcome == result
    {
      hide IsHistory;
      result := SearchUncached(r);
      if readers[r].pc.Storing? {
        Interfere(r);
        SetInCache(r);
      }
    }

    /** The part of `search` that uses the cache. */
    method SearchCached(r: ReaderId) returns (result: Result<SearchExecution, SearchError>)
      requires Valid() && r in readers && readers[r].pc.ReadingRevision?
      modifies this
      ensures Valid() && old(history) <= history && old(views) <= views && r in readers
      ensures readers[r].request == old(readers)[r].request && readers[r].since == old(readers)[r].since
      ensures readers[r].pc.Returned? && readers[r].pc.outcome == result
    {
      hide IsHistory;
      ReadCorpusRevision(r);
      Interfere(r);
      var cached := GetFromCache(r);
      if cached.Some? {
        return Success(cached.value);
      }
      Interfere(r);
      result := SearchAndStore(r);
    }

    /** CachedSearchService.search. Whatever happens around the request, all passages it returns were
        visible together at an instant between its start and its return, pass its filters and stand in
        the order of its mode;
        it raises only on a blank query, a limit below one, or a failing vector query of its mode. */
    method Search(r: ReaderId, request: Request) returns (result: Result<SearchExecution, SearchError>)
      requires Valid() && r !in readers
      modifies this
      ensures Valid() && old(history) <= history && old(views) <= views
      ensures match result
              case Success(execution) =>
                && AllPass(request.filters, execution) && ShownSince(old(Current().Now()), execution)
                && Ordered(request.mode, execution.results)
              case Failure(error) => Explains(request, error)
    {
      hide IsHistory, AllPass, ShownSince, Explains, Ordered;
      Open(r, request, ttlSeconds != 0);
      Interfere(r);
      if ttlSeconds == 0 {
        result := SearchAndStore(r);
      } else {
        result := SearchCached(r);
      }
      ReturnedResponse(r);
    }

    ghost predicate ShownSince(since: nat, execution: SearchExecution)
      reads this`views
    {
      exists k :: since <= k < |views| && AllShown(views[k], execution)
    }

    lemma ReturnedResponse(r: ReaderId)
      requires Valid() && r in readers && readers[r].pc.Returned?
      ensures match readers[r].pc.outcome
              case Success(execution) =>
                && AllPass(readers[r].request.filters, execution) && ShownSince(readers[r].since, execution)
                && Ordered(readers[r].request.mode, execution.results)
              case Failure(error) => Explains(readers[r].request, error)
    {
      hide AllPass, AllShown, Explains, Ordered;
      ResponsesAreCurrent(engine, preparer, regime, history, |history| - 1, r);
    }
  }

  lemma ViewsAreThere(engine: Engine, preparer: Preparer, s: System)
    requires SystemOk(engine, preparer, s)
    ensures s.views != []
  {
  }

  lemma HistoryExtends(engine: Engine, preparer: Preparer, regime: Regime, h: seq<System>, e: Event)
    requires engine.Valid() && IsHistory(engine, preparer, regime, h) && CanHappen(engine, regime, h[|h| - 1], e)
    ensures IsHistory(engine, preparer, regime, h + [Happen(engine, preparer, regime, h[|h| - 1], e)])
  {
    hide CanHappen, Happen;
    var s, s' := h[|h| - 1], Happen(engine, preparer, regime, h[|h| - 1], e);
    assert Moves(engine, preparer, regime, s, s');
    var longer := h + [s'];
    forall i | 0 < i < |longer| ensures Moves(engine, preparer, regime, longer[i - 1], longer[i]) {
      if i < |h| { assert Moves(engine, preparer, regime, h[i - 1], h[i]); }
    }
  }
}
