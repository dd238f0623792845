/** The aggregates of the service and their lifecycle tables (domain/documents.py). */
module Domain {
  import opened Results
  import opened Texts

  // Random identifiers and clock readings; both are only compared.
  type DocumentId = nat
  type JobId = nat
  type Timestamp = nat

  type Bytes = seq<bv8>

  /** SHA-256, taken to be injective: a digest stands for the value it was computed from. */
  datatype Digest<+T> = Digest(of: T)

  datatype MediaType = Pdf | Markdown | PlainText

  /** The file name the store derives from the document, `{id}/source{suffix}`. */
  datatype StorageKey = StorageKey(documentId: DocumentId, mediaType: MediaType)

  datatype DocumentStatus = Uploaded | Queued | Processing | Ready | Failed | Deleting

  datatype JobStatus = Waiting | Running | Succeeded | Broken

  datatype DomainError = InvalidTransition | TimeMovedBackwards | InvalidValue

  function DocumentTransitions(status: DocumentStatus): set<DocumentStatus> {
    match status
    case Uploaded => {Queued}
    case Queued => {Processing, Failed}
    case Processing => {Ready, Failed}
    case Ready => {Deleting}
    case Failed => {Queued, Deleting}
    case Deleting => {}
  }

  /** The table read backwards: READY is reached from PROCESSING alone, DELETING only from READY and
      FAILED, and nothing leaves DELETING. */
  lemma DocumentPredecessors(before: DocumentStatus, after: DocumentStatus)
    ensures after in DocumentTransitions(before) <==>
              match after
              case Uploaded => false
              case Queued => before == Uploaded || before == Failed
              case Processing => before == Queued
              case Ready => before == Processing
              case Failed => before == Queued || before == Processing
              case Deleting => before == Ready || before == Failed
  {
  }

  function JobTransitions(status: JobStatus): set<JobStatus> {
    match status
    case Waiting => {Running, Broken}
    case Running => {Succeeded, Broken}
    case Succeeded => {}
    case Broken => {Waiting}
  }

  datatype SourceLocator = SourceLocator(
    sectionPath: seq<string>, pageNumber: Option<nat>, charStart: nat, charEnd: nat)
  {
    predicate Valid() {
      && (forall i :: 0 <= i < |sectionPath| ==> !IsBlank(sectionPath[i]))
      && (pageNumber.Some? ==> pageNumber.value >= 1)
      && charStart <= charEnd
    }
  }

  datatype Document = Document(
    id: DocumentId, originalFilename: string, storageKey: StorageKey, mediaType: MediaType,
    sha256: Digest<Bytes>, sizeBytes: nat, status: DocumentStatus,
    createdAt: Timestamp, updatedAt: Timestamp, failureCode: Option<string>)
  {
    predicate Valid() {
      && !IsBlank(originalFilename)
      && createdAt <= updatedAt
      && (status == Failed ==> failureCode.Some? && failureCode.value != "")
      && (status != Failed ==> failureCode.None?)
    }

    /** The fields no operation rewrites after the upload. */
    predicate SameUpload(that: Document) {
      && id == that.id && originalFilename == that.originalFilename
      && storageKey == that.storageKey && mediaType == that.mediaType
      && sha256 == that.sha256 && sizeBytes == that.sizeBytes && createdAt == that.createdAt
    }

    function Transition(target: DocumentStatus, now: Timestamp, code: Option<string>): Result<Document, DomainError> {
      if target !in DocumentTransitions(status) then Failure(InvalidTransition)
      else if now < updatedAt then Failure(TimeMovedBackwards)
      else
        var next := this.(status := target, updatedAt := now, failureCode := code);
        if next.Valid() then Success(next) else Failure(InvalidValue)
    }

    function Queue(now: Timestamp): Result<Document, DomainError> {
      Transition(Queued, now, None)
    }

    function StartProcessing(now: Timestamp): Result<Document, DomainError> {
      Transition(Processing, now, None)
    }

    function MarkReady(now: Timestamp): Result<Document, DomainError> {
      Transition(Ready, now, None)
    }

    function MarkFailed(code: string, now: Timestamp): Result<Document, DomainError> {
      if IsBlank(code) then Failure(InvalidValue) else Transition(Failed, now, Some(code))
    }

    function MarkDeleting(now: Timestamp): Result<Document, DomainError> {
      Transition(Deleting, now, None)
    }
  }

  function NewDocument(id: DocumentId, filename: string, mediaType: MediaType, content: Bytes, now: Timestamp): Document {
    Document(id, filename, StorageKey(id, mediaType), mediaType, Digest(content), |content|,
             Uploaded, now, now, None)
  }

  datatype IngestionJob = IngestionJob(
    id: JobId, documentId: DocumentId, status: JobStatus, attemptCount: nat,
    createdAt: Timestamp, updatedAt: Timestamp,
    startedAt: Option<Timestamp>, finishedAt: Option<Timestamp>, failureCode: Option<string>)
  {
    predicate Valid() {
      && createdAt <= updatedAt
      && (startedAt.Some? ==> createdAt <= startedAt.value)
      && (finishedAt.Some? ==> createdAt <= finishedAt.value)
      && (startedAt.Some? && finishedAt.Some? ==> startedAt.value <= finishedAt.value)
      && (status == Running ==> startedAt.Some?)
      && (status == Succeeded || status == Broken ==> finishedAt.Some?)
      && (status == Broken ==> failureCode.Some? && failureCode.value != "")
      && (status != Broken ==> failureCode.None?)
    }

    /** A started job was started no later than its last change; `finish >= start` rests on it. */
    predicate StartedBefore() {
      startedAt.Some? ==> startedAt.value <= updatedAt
    }

    function Transition(target: JobStatus, now: Timestamp, attempts: nat, started: Option<Timestamp>,
                        finished: Option<Timestamp>, code: Option<string>): Result<IngestionJob, DomainError> {
      if target !in JobTransitions(status) then Failure(InvalidTransition)
      else if now < updatedAt then Failure(TimeMovedBackwards)
      else
        var next := this.(status := target, attemptCount := attempts, updatedAt := now,
                          startedAt := started, finishedAt := finished, failureCode := code);
        if next.Valid() then Success(next) else Failure(InvalidValue)
    }

    function Start(now: Timestamp): Result<IngestionJob, DomainError> {
      Transition(Running, now, attemptCount + 1, Some(now), None, None)
    }

    function Succeed(now: Timestamp): Result<IngestionJob, DomainError> {
      Transition(Succeeded, now, attemptCount, startedAt, Some(now), None)
    }

    function Fail(code: string, now: Timestamp): Result<IngestionJob, DomainError> {
      if IsBlank(code) then Failure(InvalidValue)
      else Transition(Broken, now, attemptCount, startedAt, Some(now), Some(code))
    }

    function Requeue(now: Timestamp): Result<IngestionJob, DomainError> {
      Transition(Waiting, now, attemptCount, None, None, None)
    }
  }

  function NewJob(id: JobId, documentId: DocumentId, now: Timestamp): IngestionJob {
    IngestionJob(id, documentId, Waiting, 0, now, now, None, None, None)
  }

  /** A transition of a valid document goes through exactly when the table allows it and the
      clock has not moved back; it keeps the upload and yields a valid document. */
  lemma DocumentTransitionOutcome(document: Document, target: DocumentStatus, now: Timestamp, code: Option<string>)
    requires document.Valid()
    requires target == Failed ==> code.Some? && code.value != ""
    requires target != Failed ==> code.None?
    ensures var r := document.Transition(target, now, code);
            && (r.Success? <==> target in DocumentTransitions(document.status) && document.updatedAt <= now)
            && (r.Success? ==> r.value.Valid() && r.value.SameUpload(document)
                               && r.value.status == target && r.value.updatedAt == now)
  {
  }

  /** What becomes of a job: attempts are counted by starts alone and never forgotten; a start forgets
      the last end and its code, an end keeps the start, and going back to the queue forgets both. */
  lemma JobOutcomes(job: IngestionJob, now: Timestamp, code: string)
    requires job.Valid() && job.StartedBefore() && job.updatedAt <= now && !IsBlank(code)
    ensures var r := job.Start(now);
            && (r.Success? <==> job.status == Waiting)
            && (r.Success? ==> r.value == job.(status := Running, attemptCount := job.attemptCount + 1, updatedAt := now,
                                               startedAt := Some(now), finishedAt := None, failureCode := None))
    ensures var r := job.Succeed(now);
            && (r.Success? <==> job.status == Running)
            && (r.Success? ==> r.value == job.(status := Succeeded, updatedAt := now, finishedAt := Some(now)))
    ensures var r := job.Fail(code, now);
            && (r.Success? <==> job.status == Waiting || job.status == Running)
            && (r.Success? ==> r.value == job.(status := Broken, updatedAt := now, finishedAt := Some(now), failureCode := Some(code)))
    ensures var r := job.Requeue(now);
            && (r.Success? <==> job.status == Broken)
            && (r.Success? ==> r.value == job.(status := Waiting, updatedAt := now, startedAt := None, finishedAt := None, failureCode := None))
  {
  }

  /** Chunk identity, uuid5 over "document:ordinal:hash", as the triple the name is built from;
      StableKeyInjective justifies reading the name as the triple. */
  datatype ChunkId = ChunkId(documentId: DocumentId, ordinal: nat, contentHash: Digest<string>)

  datatype Chunk = Chunk(
    id: ChunkId, documentId: DocumentId, ordinal: nat, text: string, tokenCount: nat,
    contentHash: Digest<string>, locator: SourceLocator)
  {
    predicate Valid() {
      !IsBlank(text) && tokenCount >= 1
    }
  }

  function NewChunk(documentId: DocumentId, ordinal: nat, text: string, tokenCount: nat, locator: SourceLocator): Chunk {
    Chunk(ChunkId(documentId, ordinal, Digest(text)), documentId, ordinal, text, tokenCount, Digest(text), locator)
  }

  function Decimal(n: nat): (r: string)
    ensures r != "" && forall i :: 0 <= i < |r| ==> '0' <= r[i] <= '9'
  {
    var digit := "0123456789"[n % 10];
    if n < 10 then [digit] else Decimal(n / 10) + [digit]
  }

  lemma {:induction false} DecimalInjective(m: nat, n: nat)
    requires Decimal(m) == Decimal(n)
    ensures m == n
  {
    var a, b := Decimal(m), Decimal(n);
    assert a[|a| - 1] == "0123456789"[m % 10] && b[|b| - 1] == "0123456789"[n % 10];
    assert m % 10 == n % 10;
    if m >= 10 && n >= 10 {
      assert a[..|a| - 1] == Decimal(m / 10) && b[..|b| - 1] == Decimal(n / 10);
      DecimalInjective(m / 10, n / 10);
    } else {
      assert |a| == |b|;
    }
  }

  predicate NoColon(s: string) {
    forall i :: 0 <= i < |s| ==> s[i] != ':'
  }

  function StableKey(documentId: string, ordinal: nat, contentHash: string): string {
    documentId + ":" + Decimal(ordinal) + ":" + contentHash
  }

  lemma FirstColon(a: string, b: string, x: string, y: string)
    requires NoColon(a) && NoColon(b)
    requires a + ":" + x == b + ":" + y
    ensures a == b && x == y
  {
    var left, right := a + ":" + x, b + ":" + y;
    assert left[|a|] == ':' && right[|b|] == ':';
    assert forall i :: 0 <= i < |a| ==> left[i] == a[i];
    assert forall i :: 0 <= i < |b| ==> right[i] == b[i];
    assert |a| == |b|;
    assert a == left[..|a|] && b == right[..|b|];
    assert x == left[|a| + 1..] && y == right[|b| + 1..];
  }

  /** The uuid5 name determines document, ordinal and hash: identifiers and digests are written
      without colons. */
  lemma StableKeyInjective(d: string, d': string, ordinal: nat, ordinal': nat, h: string, h': string)
    requires NoColon(d) && NoColon(d') && NoColon(h) && NoColon(h')
    requires StableKey(d, ordinal, h) == StableKey(d', ordinal', h')
    ensures d == d' && ordinal == ordinal' && h == h'
  {
    var x, y := Decimal(ordinal) + ":" + h, Decimal(ordinal') + ":" + h';
    assert StableKey(d, ordinal, h) == d + ":" + x;
    assert StableKey(d', ordinal', h') == d' + ":" + y;
    FirstColon(d, d', x, y);
    FirstColon(Decimal(ordinal), Decimal(ordinal'), h, h');
    DecimalInjective(ordinal, ordinal');
  }
}
