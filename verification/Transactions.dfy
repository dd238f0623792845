/** The relational tables and the database transactions of the application services. A
    transaction is atomic: it yields new tables, or raises and leaves them as they were. */
module Transactions {
  import opened Results
  import opened Texts
  import opened Domain

  datatype AppError =
    | InvalidAggregate(reason: DomainError)
    | DocumentNotFound
    | JobNotFound
    | Inconsistent
    | DeletionConflict
    | UniqueViolation

  datatype Rows = Rows(
    docs: map<DocumentId, Document>,
    jobs: map<JobId, IngestionJob>,
    chunks: map<ChunkId, Chunk>,
    revision: nat)
  {
    function GetDocument(id: DocumentId): Result<Document, AppError> {
      if id in docs then Success(docs[id]) else Failure(DocumentNotFound)
    }

    function GetJob(id: JobId): Result<IngestionJob, AppError> {
      if id in jobs then Success(jobs[id]) else Failure(JobNotFound)
    }

    function SaveDocument(document: Document): Rows {
      this.(docs := docs[document.id := document])
    }

    function SaveJob(job: IngestionJob): Rows {
      this.(jobs := jobs[job.id := job])
    }

    function Save(document: Document, job: IngestionJob): Rows {
      SaveDocument(document).SaveJob(job)
    }

    /** `get_by_hash` may return this document. */
    predicate HoldsHash(id: DocumentId, sha256: Digest<Bytes>) {
      id in docs && docs[id].sha256 == sha256
    }

    predicate HashTaken(sha256: Digest<Bytes>) {
      exists id :: id in docs && HoldsHash(id, sha256)
    }

    /** What `get_by_hash` may answer. */
    predicate LookupAnswer(sha256: Digest<Bytes>, found: Option<DocumentId>) {
      match found
      case Some(id) => HoldsHash(id, sha256)
      case None => !HashTaken(sha256)
    }

    /** Deleting a document cascades to its chunks and jobs. */
    function DeleteDocument(id: DocumentId): Rows {
      Rows(
        map d | d in docs && d != id :: docs[d],
        map j | j in jobs && jobs[j].documentId != id :: jobs[j],
        map c | c in chunks && chunks[c].documentId != id :: chunks[c],
        revision)
    }

    /** The chunk table once `delete_for_document` has run. */
    function OtherChunks(id: DocumentId): map<ChunkId, Chunk> {
      map c | c in chunks && chunks[c].documentId != id :: chunks[c]
    }

    function JobIds(id: DocumentId): set<JobId> {
      set j | j in jobs && jobs[j].documentId == id
    }
  }

  function Lift<T>(r: Result<T, DomainError>): Result<T, AppError> {
    match r
    case Success(value) => Success(value)
    case Failure(reason) => Failure(InvalidAggregate(reason))
  }

  /** The chunks a preparer may hand to the index: at least one, of this document, numbered from
      zero, each with the hash of its text and the identifier of owner, number and hash. */
  predicate Prepared(id: DocumentId, chunks: seq<Chunk>) {
    && chunks != []
    && forall k :: 0 <= k < |chunks| ==>
         && chunks[k].documentId == id && chunks[k].ordinal == k
         && chunks[k].contentHash == Digest(chunks[k].text)
         && chunks[k].id == ChunkId(id, k, chunks[k].contentHash)
  }

  function ChunkRows(id: DocumentId, chunks: seq<Chunk>): (rows: map<ChunkId, Chunk>)
    requires Prepared(id, chunks)
    ensures forall k :: 0 <= k < |chunks| ==> chunks[k].id in rows && rows[chunks[k].id] == chunks[k]
    ensures forall c :: c in rows ==> rows[c].id == c && c.documentId == id && rows[c].documentId == id
    ensures rows.Keys != {}
    ensures |rows| == |chunks|
  {
    var rows := map k | 0 <= k < |chunks| :: chunks[k].id := chunks[k];
    assert chunks[0].id in rows;
    RowCount(chunks, rows);
    rows
  }

  lemma {:induction false} RowCount(chunks: seq<Chunk>, rows: map<ChunkId, Chunk>)
    requires forall k :: 0 <= k < |chunks| ==> chunks[k].id.ordinal == k
    requires rows.Keys == set k | 0 <= k < |chunks| :: chunks[k].id
    ensures |rows| == |chunks|
  {
    if chunks == [] {
    } else {
      var front := chunks[..|chunks| - 1];
      var last := chunks[|chunks| - 1].id;
      var rest := rows - {last};
      assert last in rows;
      forall c | c in rest.Keys ensures c in set k | 0 <= k < |front| :: front[k].id {
        var k :| 0 <= k < |chunks| && chunks[k].id == c;
        assert k < |front| && front[k].id == c;
      }
      forall k | 0 <= k < |front| ensures front[k].id in rest.Keys {
        assert front[k] == chunks[k];
      }
      assert rest.Keys == set k | 0 <= k < |front| :: front[k].id;
      RowCount(front, rest);
      assert rows.Keys == rest.Keys + {last};
    }
  }

  /** DocumentSubmissionService.submit, the insert. The hash and both identifiers are unique columns. */
  function InsertSubmission(rows: Rows, document: Document, job: IngestionJob): Result<Rows, AppError> {
    if rows.HashTaken(document.sha256) || document.id in rows.docs || job.id in rows.jobs
    then Failure(UniqueViolation)
    else Success(rows.Save(document, job))
  }

  /** DocumentSubmissionService._mark_dispatch_failed */
  function MarkDispatchFailed(rows: Rows, documentId: DocumentId, jobId: JobId, now: Timestamp): Result<Rows, AppError> {
    if documentId !in rows.docs || jobId !in rows.jobs then Success(rows)
    else
      var document :- Lift(rows.docs[documentId].MarkFailed("queue_unavailable", now));
      var job :- Lift(rows.jobs[jobId].Fail("queue_unavailable", now));
      Success(rows.Save(document, job))
  }

  /** IngestionJobProcessor._start_job on the two rows it loads; None when there is nothing to do. */
  function StartPair(document: Document, job: IngestionJob, now: Timestamp): Result<Option<(Document, IngestionJob)>, AppError> {
    if document.status == Deleting then Success(None)
    else if job.status == Succeeded && document.status == Ready then Success(None)
    else
      var retry := job.status == Broken && document.status == Failed;
      var job :- if retry then Lift(job.Requeue(now)) else Success(job);
      var document :- if retry then Lift(document.Queue(now)) else Success(document);
      if job.status != Waiting || document.status != Queued then Failure(Inconsistent)
      else
        var document :- Lift(document.StartProcessing(now));
        var job :- Lift(job.Start(now));
        Success(Some((document, job)))
  }

  /** IngestionJobProcessor._start_job */
  function StartJob(rows: Rows, jobId: JobId, now: Timestamp): Result<(Rows, Option<DocumentId>), AppError> {
    var job :- rows.GetJob(jobId);
    var document :- rows.GetDocument(job.documentId);
    var started :- StartPair(document, job, now);
    match started
    case None => Success((rows, None))
    case Some((document, job)) => Success((rows.Save(document, job), Some(document.id)))
  }

  /** `delete_for_document` and `add_many`. Chunk ids are a primary key. */
  function ReplaceChunks(rows: Rows, documentId: DocumentId, chunks: seq<Chunk>): Result<Rows, AppError>
    requires Prepared(documentId, chunks)
  {
    var kept := rows.OtherChunks(documentId);
    var added := ChunkRows(documentId, chunks);
    if kept.Keys !! added.Keys then Success(rows.(chunks := kept + added)) else Failure(UniqueViolation)
  }

  /** The closing transaction of IngestionJobProcessor.process on the two rows it loads. */
  function ReadyPair(document: Document, job: IngestionJob, now: Timestamp): Result<(Document, IngestionJob), AppError> {
    var document :- Lift(document.MarkReady(now));
    var job :- Lift(job.Succeed(now));
    Success((document, job))
  }

  /** The closing transaction of IngestionJobProcessor.process. */
  function CommitReady(rows: Rows, documentId: DocumentId, jobId: JobId, chunks: seq<Chunk>, now: Timestamp): Result<Rows, AppError>
    requires Prepared(documentId, chunks)
  {
    var document :- rows.GetDocument(documentId);
    var job :- rows.GetJob(jobId);
    var stored :- ReplaceChunks(rows, documentId, chunks);
    var pair :- ReadyPair(document, job, now);
    Success(stored.Save(pair.0, pair.1).(revision := rows.revision + 1))
  }

  /** IngestionJobProcessor._mark_failed: each row is changed only if it is still in flight. */
  function MarkFailed(rows: Rows, documentId: DocumentId, jobId: JobId, code: string, now: Timestamp): Result<Rows, AppError> {
    var rows :-
      if documentId in rows.docs && rows.docs[documentId].status == Processing
      then
        var document :- Lift(rows.docs[documentId].MarkFailed(code, now));
        Success(rows.SaveDocument(document))
      else Success(rows);
    if jobId in rows.jobs && rows.jobs[jobId].status == Running
    then
      var job :- Lift(rows.jobs[jobId].Fail(code, now));
      Success(rows.SaveJob(job))
    else Success(rows)
  }

  /** The opening transaction of DocumentDeletionService.delete. */
  function BeginDelete(rows: Rows, documentId: DocumentId, now: Timestamp): Result<(Rows, Document, set<JobId>), AppError> {
    var document :- rows.GetDocument(documentId);
    if document.status == Deleting then Success((rows, document, rows.JobIds(documentId)))
    else if document.status != Ready && document.status != Failed then Failure(DeletionConflict)
    else
      var document :- Lift(document.MarkDeleting(now));
      Success((rows.SaveDocument(document).(revision := rows.revision + 1), document, rows.JobIds(documentId)))
  }

  datatype FailureCause =
    | Rejected(code: IngestionErrorCode)
    | EmbeddingFailed
    | VectorIndexFailed
    | Unexpected

  datatype IngestionErrorCode =
    | EmptyUpload | FileTooLarge | InvalidFilename | InvalidStorageKey | MediaTypeMismatch
    | StorageConflict | UnsupportedMediaType | InvalidTextEncoding | InvalidPdf | EncryptedPdf
    | PdfPageLimitExceeded | NoExtractableText

  function ErrorCodeValue(code: IngestionErrorCode): string {
    match code
    case EmptyUpload => "empty_upload"
    case FileTooLarge => "file_too_large"
    case InvalidFilename => "invalid_filename"
    case InvalidStorageKey => "invalid_storage_key"
    case MediaTypeMismatch => "media_type_mismatch"
    case StorageConflict => "storage_conflict"
    case UnsupportedMediaType => "unsupported_media_type"
    case InvalidTextEncoding => "invalid_text_encoding"
    case InvalidPdf => "invalid_pdf"
    case EncryptedPdf => "encrypted_pdf"
    case PdfPageLimitExceeded => "pdf_page_limit_exceeded"
    case NoExtractableText => "no_extractable_text"
  }

  /** ingestion.py:_failure_code. Recording a failure is never refused for want of a code. */
  function FailureCode(cause: FailureCause): (code: string)
    ensures !IsBlank(code)
  {
    var code := match cause
      case Rejected(c) => ErrorCodeValue(c)
      case EmbeddingFailed => "embedding_failed"
      case VectorIndexFailed => "vector_index_failed"
      case Unexpected => "ingestion_failed";
    assert !IsSpace(code[0]);
    code
  }

  /** The code to be recorded for each cause; no two causes share one. */
  lemma CodesTellCauses(cause: FailureCause, other: FailureCause)
    ensures cause == EmbeddingFailed ==> FailureCode(cause) == "embedding_failed"
    ensures cause == VectorIndexFailed ==> FailureCode(cause) == "vector_index_failed"
    ensures cause == Unexpected ==> FailureCode(cause) == "ingestion_failed"
    ensures FailureCode(cause) == FailureCode(other) ==> cause == other
  {
    CauseIsTold(cause);
    CauseIsTold(other);
    hide CauseOf;
  }

  /** Reading a recorded code back: length, first and third letter tell the codes apart. */
  function CauseOf(code: string): FailureCause {
    if |code| == 16 then
      if code[0] == 'e' then EmbeddingFailed
      else if code[0] == 's' then Rejected(StorageConflict)
      else if code[2] == 'v' then Rejected(InvalidFilename)
      else Unexpected
    else if |code| == 19 then
      if code[0] == 'v' then VectorIndexFailed
      else if code[0] == 'i' then Rejected(InvalidStorageKey)
      else if code[0] == 'm' then Rejected(MediaTypeMismatch)
      else Rejected(NoExtractableText)
    else if |code| == 12 then Rejected(EmptyUpload)
    else if |code| == 14 then Rejected(FileTooLarge)
    else if |code| == 22 then Rejected(UnsupportedMediaType)
    else if |code| == 21 then Rejected(InvalidTextEncoding)
    else if |code| == 11 then Rejected(InvalidPdf)
    else if |code| == 13 then Rejected(EncryptedPdf)
    else Rejected(PdfPageLimitExceeded)
  }

  lemma RejectionIsTold(code: IngestionErrorCode)
    ensures CauseOf(ErrorCodeValue(code)) == Rejected(code)
  {
  }

  lemma CauseIsTold(cause: FailureCause)
    ensures CauseOf(FailureCode(cause)) == cause
  {
    match cause
    case Rejected(code) => hide CauseOf, ErrorCodeValue; RejectionIsTold(code);
    case _ => hide ErrorCodeValue;
  }
}
