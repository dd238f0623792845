# Verification of the knowledge search service

A Dafny model of the core of the knowledge search service, and proofs about it. `dafny verify
dfyconfig.toml` checks the whole project.

## What is modelled

**The document lifecycle.** `Transactions` holds the meaning of each database transaction as a
function on tables, `Lifecycle` the service as a state machine: every transaction and every call of
queue, vector index or file store is one atomic action, any number of requests and workers
interleave, calls fail (a failed upsert or removal may have done any part of its work), and a process
may die between any two actions. A *regime* says what queue and database may do beyond that, in four
independent parts: deliveries of one job may overlap; and the answer to an enqueue, to the insert of a
submit, or to the READY commit of a worker may get lost although the change was made ("reported" below
means that this answer is not lost). `LifecycleSafety` and `LifecycleSteps` prove the invariant of every
regime, and `LifecycleResults` draws its consequences. `LifecycleLocality` shows that every action
concerns one document only; on it rest three more invariants, each under the part of the regime it
needs: `LifecycleIndexing`, `LifecycleOwnership` and `LifecycleFiles`. `LifecycleGuarantees` states what
follows for whole runs, and `ExactRegimes`, by the runs of `CounterRuns`, that each of these conditions
is the exact one. `Platform`, `IngestionService` and `DocumentServices` are the services in
the form of the program: methods that change the shared fields statement by statement, with arbitrary
steps of others between any two of their own, and a ghost trace that they keep a run of the machine.

**Search and its cache.** `Search` has the queries, hydration and the result loop; `CachedSearch` adds
requests and the cache to the lifecycle, each read, query and store a separate step, entries vanishing
at any time; `SearchServices` is the service in the form of the program.

**The text pipeline.** `Spacing` (gaps and words), `Normalization`, `Extraction`, `Sections` (layout on the joined stream),
`Tokens` (the token pattern as a language and as a scanner), `Windowing`, `Chunking` and `Preparation`.

**Ranking arithmetic.** `Ranking` (reciprocal rank fusion), `Gains` and `Metrics`, over exact reals with
the logarithmic discount as any positive, strictly increasing divisor; `Sorting` and `Dictionaries` are
Python's sorted() and dict.

`Results`, `Texts` and `Domain` are the common ground: result types, Python's string operations, and
the aggregates with their transition tables.

## Conventions

- SHA-256 is taken to be injective: a digest stands for what it was computed from. uuid5 (section 5.5
  of RFC 9562) likewise; that the name it is computed from is unambiguous is proved. The canonical JSON
  behind a cache key is taken to be injective too: the key is modelled as the record it is written from.
- uuid4 values are fresh numbers. A clock reading is a parameter that never moves back; one transaction
  reads it once.
- NFC, the text extractor, `\w`, text match, text rank and the orders of identifier texts are given
  functions or predicates. The vector index may answer any distinct points that pass the filters.
- A commit that fails is an action of its own where it matters: insert, enqueue and READY commit have
  an answer that a regime may lose. A lost answer elsewhere is the process dying there.
- `submit` looks the hash up and inserts in one transaction; the model lets others act in between, as
  read-committed isolation does, and relies on the unique columns alone.
- docs/architecture.md:141-149 says that a document becomes searchable only after chunks and vectors
  have been written. That a READY document has them, then and later, holds of the code exactly when
  deliveries of a job do not overlap and a stored READY commit is reported
  (`ExactRegimes.ReadyMeansIndexedExactly`). The failure path of `process` records the failure before it
  removes the points, so with overlap it can take the points of a document another delivery has just
  made READY; and a worker that takes its own stored READY commit for a failure records nothing and
  removes the points all the same. The code is modelled as it is.

## Model

| member | source | states |
|---|---|---|
| `LifecycleSteps.StepKeepsSafe` | src/knowledge_search/application/ingestion.py:41-127 | every action of every process, in any regime, keeps the inductive invariant of tables, log, files, points and processes |
| `LifecycleSteps.RunsAreSafe` | src/knowledge_search/application/ingestion.py:41-127 | so every state of every run satisfies it: any interleaving of submits, workers, deletes, failed calls and crashes |
| `LifecycleResults.StatusesAreCoupled` | src/knowledge_search/application/ingestion.py:97-127 | every document has exactly one job, and the pair of statuses is QUEUED/QUEUED, PROCESSING/RUNNING, READY/SUCCEEDED, FAILED/FAILED, or DELETING with SUCCEEDED or FAILED |
| `LifecycleResults.JobsHaveDocuments` | src/knowledge_search/persistence/models.py:158-162 | no job outlives its document |
| `LifecycleResults.DeliveryOutcome` | src/knowledge_search/application/ingestion.py:87-116 | in any reachable state the "inconsistent" branch is taken exactly for PROCESSING/RUNNING, and a delivery changes tables exactly for QUEUED and FAILED documents, never the revision |
| `LifecycleResults.ChunkRowsAreExact` | src/knowledge_search/application/ingestion.py:51-76 | a stored document has exactly the rows of one clean preparation, at least one, if it was READY at some instant of the run up to now, and then it is READY or DELETING; if it never was it has none, whatever attempts failed or were retried |
| `LifecycleResults.RevisionCountsChanges` | src/knowledge_search/persistence/repositories.py:123-128 | the revision is the number of READY commits plus the number of entries into DELETING |
| `LifecycleResults.AtMostOnceEach` | src/knowledge_search/domain/documents.py:41-48 | a document is READY for one unbroken stretch, leaves it only for DELETING, and a row that is gone never returns, so it counts at most once for each |
| `LifecycleResults.SameRevisionSameCorpus` | src/knowledge_search/application/ingestion.py:61-76 | the revision never falls, and two states of a run with equal revision have the same READY documents and the same chunk rows |
| `LifecycleResults.GoneForever` | src/knowledge_search/application/documents.py:203-204 | no later step of any process brings a deleted row back |
| `LifecycleLocality.StepIsLocal` | src/knowledge_search/application/ingestion.py:41-127 | in a reachable state an action changes row, points and file of the one document it is about, and moves no process but its own |
| `LifecycleIndexing.StepKeepsIndex` | src/knowledge_search/application/ingestion.py:41-85 | without overlap and with READY commits reported, every action from a reachable state keeps: one worker for each job, a committing worker of a PROCESSING document has all points, a cleaning one has a document neither PROCESSING nor READY, READY documents have all points |
| `LifecycleIndexing.RunsKeepIndex` | src/knowledge_search/application/ingestion.py:41-85 | so every state of every such run satisfies it |
| `LifecycleGuarantees.ReadyMeansIndexed` | src/knowledge_search/application/ingestion.py:41-85 | without overlap and with READY commits reported: a READY document has at least one chunk row, its rows and vector points are exactly those of one clean run, one point for each row, whose payload has its document, media type, ordinal, path, page and hash |
| `ExactRegimes.ReadyMeansIndexedExactly` | src/knowledge_search/application/ingestion.py:61-85 | for every preparer that can prepare some upload: READY means indexed in every state of every run of a regime if and only if deliveries do not overlap and the READY commit is reported |
| `CounterRuns.OverlapEmpties` | src/knowledge_search/application/ingestion.py:77-85 | the run behind one half: the failure path of one delivery takes the points of a document another delivery has made READY |
| `CounterRuns.LostCommitEmpties` | src/knowledge_search/application/ingestion.py:61-85 | the run behind the other: a worker whose READY commit was stored but not reported takes the points itself |
| `LifecycleOwnership.StepKeepsOwned` | src/knowledge_search/application/ingestion.py:87-127 | with enqueues reported, however deliveries overlap, every action from a reachable state keeps: a working worker has its document PROCESSING and is the only one, an unqueued job has no worker, a delete past the vectors and a removed row have no points |
| `LifecycleOwnership.RunsAreOwned` | src/knowledge_search/application/ingestion.py:41-127 | so every state of every such run satisfies it |
| `LifecycleGuarantees.SoleOwner` | src/knowledge_search/application/ingestion.py:87-116 | with enqueues reported: a worker past `_start_job` has its document PROCESSING and its job RUNNING, is the only worker yet to record a failure, and no delete of the document is under way; with READY commits reported also in its failure path |
| `ExactRegimes.StartersOwnExactly` | src/knowledge_search/application/ingestion.py:77-85 | workers own their documents up to the recording of a failure in every state of every run of a regime if and only if enqueues and READY commits are reported |
| `LifecycleGuarantees.WorkersDoNotMeet` | src/knowledge_search/application/ingestion.py:77-85 | without overlap no two workers past `_start_job` have the same document, cleanups included |
| `ExactRegimes.WorkersDoNotMeetExactly` | src/knowledge_search/application/ingestion.py:77-85 | that holds in every state of every run of a regime if and only if deliveries do not overlap |
| `ExactRegimes.WorkersOwnExactly` | src/knowledge_search/application/ingestion.py:87-116 | working workers own their documents in every state of every run of a regime if and only if enqueues are reported |
| `CounterRuns.LostEnqueueContests` | src/knowledge_search/application/documents.py:108-128 | the run behind it: the submit fails the document under its worker |
| `LifecycleGuarantees.NoOrphanPoints` | src/knowledge_search/application/documents.py:189-204 | with enqueues reported every vector point belongs to a stored document |
| `ExactRegimes.NoOrphansExactly` | src/knowledge_search/application/documents.py:189-204 | no vector point is orphaned in any state of any run of a regime if and only if enqueues are reported |
| `CounterRuns.LostEnqueueOrphans` | src/knowledge_search/application/documents.py:168-204 | the run behind it: the delete of the document completes before its worker writes the points |
| `LifecycleFiles.StepKeepsFiles` | src/knowledge_search/application/documents.py:72-105 | in any regime every action from a reachable state keeps: a removed document has no file, a rejected duplicate neither row nor file, and, with inserts reported, every other stored document has its file |
| `LifecycleFiles.RunsKeepFiles` | src/knowledge_search/application/documents.py:72-105 | so every state of every run satisfies it |
| `LifecycleGuarantees.RowsHaveFiles` | src/knowledge_search/application/documents.py:72-105 | with inserts reported every document not DELETING has its uploaded file, byte for byte |
| `ExactRegimes.RowsHaveFilesExactly` | src/knowledge_search/application/documents.py:72-105 | for every preparer: documents not DELETING have their files in every state of every run of a regime if and only if inserts are reported |
| `CounterRuns.LostInsertUnfiles` | src/knowledge_search/application/documents.py:88-105 | the run behind it: the handler deletes the file of an insert that was stored but not reported |
| `LifecycleGuarantees.DeletionIsFinal` | src/knowledge_search/application/documents.py:168-204 | once the row is gone no row, job, chunk or file of the document exists, then or later, however often the delete was retried, in any regime; and no vector point with enqueues reported |
| `ExactRegimes.DeletionIsFinalExactly` | src/knowledge_search/application/documents.py:168-204 | for vector points deletion is final in all runs of a regime if and only if enqueues are reported |
| `LifecycleGuarantees.OneRowPerHash` | src/knowledge_search/application/documents.py:88-106 | at most one row for each content hash, under any concurrent submits and deletes |
| `LifecycleGuarantees.RejectionNamesAHolder` | src/knowledge_search/application/documents.py:91-102 | a submit rejected as duplicate names a row that held that hash during the call, also when only the unique constraint noticed |
| `LifecycleGuarantees.RejectionLeavesNothing` | src/knowledge_search/application/documents.py:96-105 | a submit rejected as a duplicate leaves neither file nor row, in any regime; one that ends in another error neither, with inserts and enqueues reported |
| `ExactRegimes.RejectionLeavesNothingExactly` | src/knowledge_search/application/documents.py:88-128 | for those other errors it holds in every state of every run of a regime if and only if inserts and enqueues are reported |
| `CounterRuns.LostEnqueueLeavesReady` | src/knowledge_search/application/documents.py:108-128 | the run behind one half: the job was queued and has made the document READY when the dispatch-failure transaction raises |
| `LifecycleGuarantees.WorkerHoldsPrepared` | src/knowledge_search/application/ingestion.py:51-59 | with a valid preparer, what a worker upserts and commits is a non-empty list of chunks of its document, numbered from zero |
| `LifecycleSafety.StartJobOutcome` | src/knowledge_search/application/ingestion.py:87-116 | `_start_job` on tables of the invariant: the document status alone decides the outcome, the inconsistent branch is exactly PROCESSING/RUNNING, and nothing else raises but a missing job |
| `LifecycleSafety.MarkFailedOutcome` | src/knowledge_search/application/ingestion.py:118-127 | `_mark_failed` never raises: it fails a PROCESSING document with its RUNNING job and otherwise changes nothing |
| `LifecycleSafety.MarkDispatchFailedOutcome` | src/knowledge_search/application/documents.py:119-128 | the dispatch-failure transaction raises exactly when the document is READY, FAILED or DELETING by then, and otherwise fails the pair and keeps the invariant |
| `LifecycleSafety.CommitReadyOutcome` | src/knowledge_search/application/ingestion.py:61-76 | the closing transaction goes through exactly while the document is PROCESSING, stores exactly the expected rows over none, and counts once |
| `LifecycleSafety.BeginDeleteOutcome` | src/knowledge_search/application/documents.py:169-187 | deletion begins exactly on READY and FAILED documents and counts once; on DELETING it only resumes |
| `Domain.DocumentTransitionOutcome` | src/knowledge_search/domain/documents.py:41-48 | a transition succeeds exactly when the table allows it and the clock has not moved back; it keeps the upload and yields a valid document |
| `Domain.DocumentPredecessors` | src/knowledge_search/domain/documents.py:41-48 | READY is reached from PROCESSING alone, DELETING from READY and FAILED, and nothing leaves DELETING |
| `Domain.JobOutcomes` | src/knowledge_search/domain/documents.py:50-57 | each transition of a job goes through exactly from the statuses of the table; attempts are counted by starts alone, and times and code are kept or forgotten as stated |
| `Domain.StableKeyInjective` | src/knowledge_search/domain/documents.py:345-347 | the name "document:ordinal:hash" determines document, ordinal and hash |
| `Transactions.FailureCode` | src/knowledge_search/application/ingestion.py:130-137 | a failure always has a code that may be recorded |
| `Transactions.CodesTellCauses` | src/knowledge_search/application/ingestion.py:130-137 | the codes of the three unspecific causes, and no two causes share a code |
| `IngestionService.IngestionJobProcessor.StartJob` | src/knowledge_search/application/ingestion.py:87-116 | the statements of the transaction, with rollback, have exactly the effect and answer of the transaction function |
| `IngestionService.IngestionJobProcessor.MarkFailed` | src/knowledge_search/application/ingestion.py:118-127 | likewise for the failure transaction |
| `IngestionService.IngestionJobProcessor.CommitReady` | src/knowledge_search/application/ingestion.py:61-76 | likewise for the closing transaction: delete and add chunks, save both rows, increment |
| `IngestionService.IngestionJobProcessor.Attempt` | src/knowledge_search/application/ingestion.py:45-76 | the try block among arbitrary interference: it ends with the job settled at an instant of the call, or in the failure path |
| `IngestionService.IngestionJobProcessor.Process` | src/knowledge_search/application/ingestion.py:41-85 | from delivery to return the state goes through a run; a normal return means the job was settled at some instant of the call; a call that cannot start raises because the job is missing or in flight already; an ingestion failure means that this worker started the job at one instant, which counts one attempt more, and by its own later step recorded this failure: afterwards the job is not in flight, and if it was until then, which it always was with enqueues and READY commits reported, document and job are FAILED with the code of this failure |
| `Platform.Platform.AddChunks` | src/knowledge_search/persistence/repositories.py:71-72 | adding rows one by one succeeds exactly when no identifier is taken, and then adds exactly these rows |
| `Platform.Platform.DeleteDocument` | src/knowledge_search/persistence/repositories.py:61-64 | deleting a row takes its jobs and chunks along and nothing else |
| `Platform.Platform.Interfere` | src/knowledge_search/application/ingestion.py:41-85 | any steps of any other processes, crashes included, keep the trace a run and do not move this process |
| `DocumentServices.DocumentSubmissionService.Insert` | src/knowledge_search/application/documents.py:89-95 | the insert fails exactly when hash or identifier is taken, else stores exactly the two rows |
| `DocumentServices.DocumentSubmissionService.MarkDispatchFailed` | src/knowledge_search/application/documents.py:119-128 | the statements of the transaction, with rollback, have exactly the effect of the transaction function |
| `DocumentServices.DocumentSubmissionService.Register` | src/knowledge_search/application/documents.py:88-105 | lookup, insert and both handlers among interference: stored at an instant of the call, or rejected naming a holder |
| `DocumentServices.DocumentSubmissionService.SubmitDocument` | src/knowledge_search/application/documents.py:62-128 | accepted: the upload stored as it came, with a job never tried, and then queued during the call; duplicate: the named document held the hash during the call and nothing of this upload is left; queue error: the rows were stored, and later both failed with queue_unavailable or gone; other errors leave nothing where inserts and enqueues are reported |
| `DocumentServices.DocumentDeletionService.BeginDelete` | src/knowledge_search/application/documents.py:169-187 | the statements of the opening transaction have exactly the effect and answer of the transaction function |
| `DocumentServices.DocumentDeletionService.DeleteDocument` | src/knowledge_search/application/documents.py:168-204 | a normal return means the row is gone, its jobs were out of the queue at later instants than its DELETING, no job, chunk or file of the document is left, and no point with enqueues reported; not found means it was missing, a conflict that it was QUEUED or PROCESSING, failed cleanup that it was DELETING, each at an instant of the call; nothing else raises |
| `Search.Assemble` | src/knowledge_search/application/search.py:80-102 | the result loop with its early break returns the first `limit` loaded candidates in ranked order |
| `Search.ResultsAreFirstVisible` | src/knowledge_search/application/search.py:77-102 | for arbitrary, even stale candidate lists the results are exactly the first `limit` candidates visible at loading, in ranked order and with their scores and ranks: positions ascend, and a visible candidate is left out only behind a full page |
| `Search.Rank` | src/knowledge_search/application/search.py:123-145 | outside hybrid mode the candidates are the hits of the one list in its order, each with its id and score, its rank in the column of the mode and nothing in the other; in hybrid mode the fusion of both |
| `Search.KeywordSearchIsExact` | src/knowledge_search/application/search.py:44-145 | a keyword search in which nothing changes returns exactly the page it promises: chunks of READY documents that match and pass the filters, each once, with the text rank as score and numbered from one, higher ranks ahead and equal ones by id; one is missing only behind a full page, and then no better than any on it |
| `Search.ResultsAreOrdered` | src/knowledge_search/application/search.py:77-102 | whatever chunks have gone meanwhile, results keep the order of their mode: ranks of the one list rising and none in the other column, scores falling in keyword and hybrid mode |
| `Search.KeywordAnswerIsUnique` | src/knowledge_search/persistence/search.py:19-55 | order and limit determine the keyword answer |
| `Search.ExecutionIsShown` | src/knowledge_search/persistence/search.py:57-85 | every result cites a chunk of a READY document with exactly its text, section path, page, file name and media type |
| `SearchServices.KeywordCandidates` | src/knowledge_search/persistence/search.py:19-55 | the keyword query returns visible matching chunks that pass the filters, best first and by id on ties, and leaves one out only behind a full list |
| `CachedSearch.KeysIdentifySearches` | src/knowledge_search/application/cache.py:79-99 | two keys are equal exactly for the same query words, mode, limit, filter multisets and revision |
| `CachedSearch.HistoriesAreOk` | src/knowledge_search/application/cache.py:44-76 | any interleaving of requests, lifecycle steps and cache expiry keeps the invariant of entries and requests |
| `CachedSearch.HitIsShown` | src/knowledge_search/application/cache.py:66-68 | a hit is as good as a search: its passages were visible together when the entry was loaded, if during this request, else when this request read the revision |
| `CachedSearch.LoadedPass` | src/knowledge_search/application/search.py:78-102 | loading rechecks no filter, yet every result passes the filters, because owner and media type of a chunk never change |
| `CachedSearch.ResponsesAreCurrent` | src/knowledge_search/application/cache.py:44-76 | every response, hit or miss, in every mode and regime: at one instant between start and return all its passages belonged to READY documents with exactly that text, all pass the filters, and they stand in the order of their mode; an error response is for a blank query, for a limit below one, or, past both and only in a mode with a vector query, an error of that query |
| `CachedSearch.KeywordHitsAreFresh` | src/knowledge_search/application/cache.py:59-68 | a keyword hit under the current revision is the exact page of that state, and the one result the uncached search can return in it, whichever request with the same key made the entry |
| `SearchServices.CachedSearchService.Search` | src/knowledge_search/application/cache.py:44-76 | the method itself, step by step among arbitrary interference, returns passages visible together during the call, passing the filters and in the order of their mode, or raises for a failed check or a failing vector query of its mode |
| `SearchServices.CachedSearchService.QueryVector` | src/knowledge_search/application/search.py:109-121 | embedding and vector query answer, or raise EmbeddingError or VectorIndexError and end the request |
| `SearchServices.CachedSearchService.SearchUncached` | src/knowledge_search/application/search.py:44-107 | checks, keyword query, vector query and loading as separate steps of a history; the errors of checks, embedding and index pass through |
| `Normalization.RewriteIsNormal` | src/knowledge_search/ingestion/normalization.py:8-14 | no CR, no NBSP, no blank before a newline, no three newlines in a row, no outer whitespace |
| `Normalization.RewriteKeepsInk` | src/knowledge_search/ingestion/normalization.py:8-14 | the sequence of non-whitespace characters is kept |
| `Normalization.RewriteFixpoints` | src/knowledge_search/ingestion/normalization.py:8-14 | idempotent, and unchanged texts are exactly those already of that shape |
| `Normalization.RewriteIsTidy` | src/knowledge_search/ingestion/normalization.py:8-14 | the five passes are one pass from the end, stripped: a line end becomes a newline unless two follow, a blank before a newline or the end goes, a no-break space is a space, all else stays |
| `Normalization.RewriteKeepsGaps` | src/knowledge_search/ingestion/normalization.py:8-14 | two neighbouring non-whitespace characters are adjacent in the result exactly when they were before; of the line ends between them, LF, CR and CR LF each one, at most two remain of each stretch of blanks and line ends, so exactly min(2, their number) unless other whitespace stands between them |
| `Normalization.MoreThanTwoLineEnds` | src/knowledge_search/ingestion/normalization.py:5-13 | with a vertical tab between them three line ends remain |
| `Normalization.WordsAreKept` | src/knowledge_search/ingestion/normalization.py:8-14 | the text has the same words before and after |
| `Normalization.NormalizationKeepsContent` | src/knowledge_search/ingestion/normalization.py:8-14 | a text vanishes exactly when it is blank, for a composition that keeps blankness |
| `Extraction.HeadingsAreKept` | src/knowledge_search/ingestion/extraction.py:50-58 | exactly the headings with non-blank content are kept, in order, each at its line and level and with its content stripped |
| `Extraction.ExtractMarkdown` | src/knowledge_search/ingestion/extraction.py:42-87 | the loops over tokens, heading stack and slices yield exactly preamble and heading sections of the specification |
| `Extraction.PopDeeper` | src/knowledge_search/ingestion/extraction.py:71-72 | popping keeps the longest prefix whose last level is smaller |
| `Extraction.PopAndPush` | src/knowledge_search/ingestion/extraction.py:70-73 | popping and pushing turns the path of one heading into the path of the next |
| `Extraction.HeadingPaths` | src/knowledge_search/ingestion/extraction.py:69-85 | heading i is under exactly the headings j up to i that every heading after j up to i is strictly deeper than; levels increase strictly along the path, which ends in i |
| `Extraction.LinesArePartitioned` | src/knowledge_search/ingestion/extraction.py:63-85 | preamble, heading lines and bodies are the lines of the document, each once and in order |
| `Extraction.SectionsOfBodies` | src/knowledge_search/ingestion/extraction.py:70-85 | one section for exactly each heading with a non-blank body, in order |
| `Extraction.PreambleHolds` | src/knowledge_search/ingestion/extraction.py:65-67 | the lines above the first heading make one section, with no path and no page, exactly when one of them is not blank |
| `Extraction.BodiesHaveInk` | src/knowledge_search/ingestion/extraction.py:75-78 | a body is not blank exactly when some line between the heading and the next one is not |
| `Extraction.HeadingSectionHolds` | src/knowledge_search/ingestion/extraction.py:76-85 | a section is the title, a newline and the lines of the body, each at its place and nothing else; its path is the titles of the headings around it |
| `Extraction.SectionsKeepInk` | src/knowledge_search/ingestion/extraction.py:60-87 | the sections have, in order, the non-whitespace characters of the preamble and of title and body of each heading with a non-blank body; without headings the one section is the text |
| `Extraction.MarkdownSectionsAreValid` | src/knowledge_search/ingestion/models.py:13-17 | whatever headings the parser finds, every section cut passes the checks of its constructor, and no part of its path is blank |
| `Sections.NormalizeSections` | src/knowledge_search/ingestion/pipeline.py:65-90 | the cursor loop yields exactly the specified sections, or the no-text error when none is left |
| `Sections.NormalizedSectionsAreLaidOut` | src/knowledge_search/ingestion/pipeline.py:65-83 | sections lie on the joined stream one after the other, two characters apart; empty ones are dropped, order, path and page kept |
| `Sections.NoSectionIsLost` | src/knowledge_search/ingestion/pipeline.py:65-83 | with composition that keeps text non-blank no section is dropped and all locators are valid |
| `Sections.SectionIsPart` | src/knowledge_search/ingestion/pipeline.py:70-83 | each section text stands on the joined stream exactly at its char_start..char_end, and two line feeds stand between neighbours |
| `Sections.TokensStayInTheirSection` | src/knowledge_search/ingestion/chunking.py:10-22 | no token of the stream crosses a section separator |
| `Tokens.ScanIsTokens` | src/knowledge_search/ingestion/chunking.py:10-10 | the scanner yields the leftmost longest matches of the pattern, defined as a language, and no other list is that |
| `Tokens.TokensPartitionInk` | src/knowledge_search/ingestion/chunking.py:10-26 | tokens come in order, hold no whitespace, and each non-whitespace character lies in one of them; none exactly for blank texts |
| `Tokens.TokensOfCut` | src/knowledge_search/ingestion/chunking.py:10-41 | a text cut out at token boundaries has exactly the tokens it was cut around |
| `Windowing.Windows` | src/knowledge_search/ingestion/chunking.py:25-48 | the window loop equals its specification and is always left by its break |
| `Windowing.WindowingIsUnique` | src/knowledge_search/ingestion/chunking.py:31-47 | the windows are the only ranges that are full but for the last, share exactly `overlap` tokens with the next, add a new token each and end the text |
| `Windowing.WindowsConserveTokens` | src/knowledge_search/ingestion/chunking.py:25-48 | read off the window texts: each has token_count tokens, gluing them with the overlaps dropped rebuilds the token list, and counts sum to n + overlap * (windows - 1) |
| `Windowing.NeighboursShareOverlap` | src/knowledge_search/ingestion/chunking.py:31-47 | all but the last window have exactly `size` tokens; the last `overlap` tokens of one are the first of the next, which ends further on |
| `Windowing.WindowsAreCutOut` | src/knowledge_search/ingestion/chunking.py:36-42 | strip() takes nothing: the window text is the slice from its first to its last token |
| `Windowing.WindowsCoverInk` | src/knowledge_search/ingestion/chunking.py:25-48 | no non-whitespace character is outside all windows; no window exactly for blank texts |
| `Chunking.MakeSizes` | src/knowledge_search/ingestion/chunking.py:134-140 | a configuration is accepted exactly for 0 <= overlap < size |
| `Chunking.SectionAtOffset` | src/knowledge_search/ingestion/chunking.py:124-131 | the reversed search finds the last section that starts at or before the offset, or raises |
| `Chunking.InkIsFound` | src/knowledge_search/ingestion/chunking.py:124-131 | on laid out sections the ValueError is out of reach, and the section found is the one that holds the offset |
| `Chunking.FixedWindowChunk` | src/knowledge_search/ingestion/chunking.py:75-95 | the loop over windows equals its specification, including the raising case |
| `Chunking.SectionAwareChunk` | src/knowledge_search/ingestion/chunking.py:104-121 | the nested loops equal their specification, ordinals running through |
| `Chunking.FixedLocatorsInvert` | src/knowledge_search/ingestion/chunking.py:75-95 | chunking never raises; slicing the stream at char_start..char_end gives the chunk text, path and page are those of the section holding char_start |
| `Chunking.SectionLocatorsInvert` | src/knowledge_search/ingestion/chunking.py:104-121 | the same for section-aware chunks, none of which reaches over the end of its section |
| `Chunking.FixedChunksCoverInk` | src/knowledge_search/ingestion/chunking.py:75-95 | no non-whitespace character of the stream is missing from all chunks |
| `Chunking.SectionChunksCoverInk` | src/knowledge_search/ingestion/chunking.py:104-121 | nor with section-aware chunks |
| `Chunking.NonBlankSectionsYieldChunks` | src/knowledge_search/ingestion/chunking.py:104-121 | a section yields a chunk of its own exactly when it is not blank |
| `Chunking.ChunkersAgreeOnOneSection` | src/knowledge_search/ingestion/chunking.py:75-121 | on one-section documents both strategies give the same chunks |
| `Chunking.FixedChunksAreStorable` | src/knowledge_search/ingestion/chunking.py:51-95 | fixed-window chunks are valid and numbered from zero under the document |
| `Chunking.SectionChunksAreStorable` | src/knowledge_search/ingestion/chunking.py:51-121 | so are section-aware chunks |
| `Preparation.Prepare` | src/knowledge_search/ingestion/pipeline.py:31-40 | the composition of normalizing and chunking with both no-text branches |
| `Preparation.PreparationOutcome` | src/knowledge_search/ingestion/pipeline.py:31-90 | preparing succeeds exactly when some section has a non-whitespace character; it fails only for want of text, never with the ValueError; successful chunks cover all text, are located and valid |
| `Preparation.StrategiesDiffer` | src/knowledge_search/ingestion/pipeline.py:31-40 | fixed-window chunks are the windows of the joined stream, one by one; section-aware ones lie each inside a section |
| `Preparation.ChunkLocatorsAreValid` | src/knowledge_search/domain/documents.py:74-89 | no chunk is refused for its locator when the extracted sections passed their checks |
| `Preparation.MarkdownLocatorsAreValid` | src/knowledge_search/domain/documents.py:74-89 | so none of a Markdown document is, whatever headings the parser finds |
| `Preparation.PipelineIsAPreparer` | src/knowledge_search/ingestion/pipeline.py:43-62 | with either strategy the pipeline is a preparer as the lifecycle theorems ask for |
| `Ranking.ReciprocalRankFusion` | src/knowledge_search/retrieval/ranking.py:7-35 | the two accumulating loops and the sort yield each id of the union once with its exact score and ranks, sorted by score, then id; k below one is refused |
| `Ranking.FusedScores` | src/knowledge_search/retrieval/ranking.py:14-30 | for lists that name each id once an entry has its rank in each list, and as score one over k plus the rank for each list that has it |
| `Ranking.FusionIsUnique` | src/knowledge_search/retrieval/ranking.py:24-35 | that description determines the list |
| `Ranking.FusionIsSymmetric` | src/knowledge_search/retrieval/ranking.py:19-35 | swapping the rankings keeps order and scores and swaps the rank columns |
| `Ranking.DominanceIsKept` | src/knowledge_search/retrieval/ranking.py:19-35 | for lists with distinct ids an id ranked no worse in both (absent counts as last) never scores lower and stands behind only on a tie decided by id; better in one list means ahead |
| `Gains.DiscountedGain` | src/knowledge_search/evaluation/metrics.py:79-83 | the loop sums the discounted gains |
| `Gains.NothingBeatsTheBest` | src/knowledge_search/evaluation/metrics.py:68-71 | rearrangement: no list that uses the values at most as often as they occur gains more than the best of them in non-increasing order, and only such an order gains as much |
| `Metrics.ValuesAreConserved` | src/knowledge_search/evaluation/metrics.py:55-60 | the relevances retrieved, repeats counting zero, and those of the locations not retrieved together are the judged ones |
| `Metrics.EvaluateRanking` | src/knowledge_search/evaluation/metrics.py:31-76 | the loops compute recall, reciprocal rank and NDCG of the specification; a limit below one is refused |
| `Metrics.TableHoldsLast` | src/knowledge_search/evaluation/metrics.py:39-46 | the table has exactly the judged locations, each with the relevance of its last judgement |
| `Metrics.NdcgIsQuotient` | src/knowledge_search/evaluation/metrics.py:55-71 | NDCG is the gain of the retrieved relevances, repeats counting zero, over that of the first locations of any ideal order of the judged ones; it is 0 without judgements, between 0 and 1 always, and 1 exactly when the retrieved relevances are the ideal ones |
| `Metrics.IdealOrderExists` | src/knowledge_search/evaluation/metrics.py:69-69 | there is such an order |
| `Gains.PowersMultiply` | src/knowledge_search/evaluation/metrics.py:79-83 | the gain of a relevance is a power of two less one |
| `Metrics.NdcgIsOneForTheBest` | src/knowledge_search/evaluation/metrics.py:55-71 | NDCG is 1 exactly for rankings that begin with as many of the best judged locations as the limit has room for, each once, in non-increasing relevance |
| `Metrics.RecallIsShare` | src/knowledge_search/evaluation/metrics.py:61-62 | recall is the share of the judged locations that were retrieved, between 0 and 1, and 1 exactly when all were |
| `Metrics.ReciprocalRankIsFirstHit` | src/knowledge_search/evaluation/metrics.py:63-67 | one over the rank of the first judged location, 0 without one |
| `Texts.QueryNormalization` | src/knowledge_search/application/search.py:52-54 | normalizing a query is idempotent, identifies exactly queries with the same words, and is empty exactly for blank ones |
| `Spacing.QueryKeepsOpenings` | src/knowledge_search/application/search.py:52-52 | a normalized query has the non-whitespace characters of the query, with whitespace between neighbours exactly where there was any |

## Left out

- FastAPI routes, schemas, UI, logging, configuration, migrations and deployment files: plumbing.
- PDF parsing, the Markdown parser, decoding of the upload, embeddings and the answer service: foreign
  code or easy members. Extraction starts from the lines and the headings the parser found; that the two
  number lines alike is assumed where lines are partitioned (`Extraction.LinesInOrder`).
- Validation of file names and media types and the size limit of an upload: easy members. `submit` starts
  from validated input and a stored file; its own `store.delete` is taken to succeed.
- Progress: a worker that dies leaves its document PROCESSING, and nothing here says otherwise.
- Which single schedules do harm: the regimes are exact, that is, outside them some run breaks the
  guarantee; not every run does.
- Equality of a cache hit with a fresh search in vector and hybrid mode is not claimed: the points may
  change without a change of the revision, and the index is free in what it answers.
- The time to live of cache entries: entries may vanish at any time. Serialization of cached results is
  not modelled.
- Isolation anomalies other than the lookup before an insert, and the internals of PostgreSQL, Qdrant
  and Redis: tables are maps and transactions atomic.
- Rounding: scores, gains and metrics are exact reals.
- Retries of the queue and their limit: a job may be delivered any number of times.
- Listing and reading documents and jobs: plain reads.
- One object graph for all services: the search service sees the lifecycle state as one value that
  others replace, not as a `Platform` object.
