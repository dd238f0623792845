/** The guarantees over whole runs, each under the part of the regime it needs; ExactRegimes shows
    that none of these conditions can be dropped. */
module LifecycleGuarantees {
  import opened Results
  import opened Texts
  import opened Domain
  import opened Transactions
  import opened Lifecycle
  import opened LifecycleSafety
  import opened LifecycleSteps
  import opened LifecycleResults
  import opened LifecycleLocality
  import opened LifecycleIndexing
  import Owner = LifecycleOwnership
  import Files = LifecycleFiles

  /** The points one clean run writes for a document. */
  function ExpectedPoints(preparer: Preparer, document: Document): map<ChunkId, Point> {
    var rows := Expected(preparer, document);
    map c | c in rows :: PointOf(document.mediaType, rows[c])
  }

  /** The payload of a point tells its chunk's place in the document and its hash. */
  predicate Describes(point: Point, chunk: Chunk) {
    && point.ordinal == chunk.ordinal && point.contentHash == chunk.contentHash
    && point.sectionPath == chunk.locator.sectionPath && point.pageNumber == chunk.locator.pageNumber
  }

  function StoredPoints(s: State, d: DocumentId): map<ChunkId, Point> {
    map c | c in s.points && s.points[c].documentId == d :: s.points[c]
  }

  function ChunksOfDocument(s: State, d: DocumentId): map<ChunkId, Chunk> {
    map c | c in s.rows.chunks && s.rows.chunks[c].documentId == d :: s.rows.chunks[c]
  }

  /** The document has at least one chunk row; its chunk rows and its vector points are exactly
      those of one clean run. */
  predicate FullyIndexed(preparer: Preparer, s: State, d: DocumentId) {
    && d in s.rows.docs
    && ChunksOfDocument(s, d) != map[] && ChunksOfDocument(s, d) == Expected(preparer, s.rows.docs[d])
    && StoredPoints(s, d) == ExpectedPoints(preparer, s.rows.docs[d])
  }

  ghost predicate ReadyIsIndexed(preparer: Preparer, s: State) {
    forall d :: IsReady(s.rows, d) ==> FullyIndexed(preparer, s, d)
  }

  lemma PointsOfReady(preparer: Preparer, s: State, d: DocumentId)
    requires Reachable(preparer, s) && Indexed(s, d) && IsReady(s.rows, d)
    ensures StoredPoints(s, d) == ExpectedPoints(preparer, s.rows.docs[d])
  {
    hide Reachable, RowsOk, LogOk, FilesOk, ProcessesOk, Expected, ChunksOk;
    ReachableIsSafe(preparer, s);
    DocumentFacts(preparer, s, d);
    var document := s.rows.docs[d];
    var expected := Expected(preparer, document);
    PointsAreExpected(s.points, s.log);
    ExpectedOwnerOf(preparer, s, d);
    forall c | c in expected ensures c in s.points && s.points[c].documentId == d {
    }
  }

  lemma PointsAreExpected(points: map<ChunkId, Point>, log: Log)
    requires PointsOk(points, log)
    ensures forall c :: c in points ==> PointOk(points, log, c)
  {
  }

  lemma ExpectedOwnerOf(preparer: Preparer, s: State, d: DocumentId)
    requires Reachable(preparer, s) && d in s.log.expected
    ensures forall c :: c in s.log.expected[d] ==> c.documentId == d && s.log.expected[d][c].documentId == d
  {
    hide Reachable, RowsOk, LogOk, FilesOk, PointsOk, ProcessesOk;
    ReachableIsSafe(preparer, s);
    ExpectedOwner(preparer, s.rows, s.log, s.used);
  }

  /** READY means indexed, whatever failed, was retried or crashed before, as long as deliveries of
      a job do not overlap and a stored READY commit is reported. One point stands for each chunk
      row, carrying the document's id and media type. */
  lemma ReadyMeansIndexed(preparer: Preparer, regime: Regime, run: seq<State>, i: nat, d: DocumentId)
    requires IsRun(preparer, regime, run) && i < |run| && IsReady(run[i].rows, d)
    requires !regime.overlap && !regime.lostCommit
    ensures FullyIndexed(preparer, run[i], d)
    ensures forall c :: c in ChunksOfDocument(run[i], d) ==>
              && c in run[i].points && run[i].points[c].documentId == d
              && run[i].points[c].mediaType == run[i].rows.docs[d].mediaType
              && Describes(run[i].points[c], run[i].rows.chunks[c])
  {
    hide Safe, Reachable, IsRun, UniqueWorkers, Guarded, Expected;
    ReachedByRun(preparer, regime, run, i);
    RunsAreSafe(preparer, regime, run, i);
    RunsKeepIndex(preparer, regime, run, i);
    ChunkRowsAreExact(preparer, regime, run, i, d);
    assert IndexOk(run[i], d);
    PointsOfReady(preparer, run[i], d);
    ReadyChunkPoints(preparer, run[i], d);
  }

  lemma ReadyChunkPoints(preparer: Preparer, s: State, d: DocumentId)
    requires Reachable(preparer, s) && IsReady(s.rows, d)
    requires StoredPoints(s, d) == ExpectedPoints(preparer, s.rows.docs[d])
    ensures s.rows.docs[d].id == d
    ensures forall c :: c in Expected(preparer, s.rows.docs[d]) ==>
              && c in s.points && s.points[c].documentId == d && s.points[c].mediaType == s.rows.docs[d].mediaType
              && Describes(s.points[c], Expected(preparer, s.rows.docs[d])[c])
  {
    hide Safe, Reachable, Expected;
    ReachableIsSafe(preparer, s);
    forall c | c in Expected(preparer, s.rows.docs[d])
      ensures c in s.points && s.points[c].documentId == d && s.points[c].mediaType == s.rows.docs[d].mediaType
      ensures Describes(s.points[c], Expected(preparer, s.rows.docs[d])[c])
    {
      assert c in ExpectedPoints(preparer, s.rows.docs[d]);
      assert c in StoredPoints(s, d);
    }
    DocumentFacts(preparer, s, d);
  }

  /** The worker is past `_start_job` and before its failure path. */
  predicate Working(s: State, p: ProcessId, d: DocumentId) {
    CarriedBy(s.procs, p, d) && !s.procs[p].workerPc.Failing? && !s.procs[p].workerPc.Cleaning?
  }

  /** The document is PROCESSING with the job of worker p RUNNING, no other worker that started the
      document has yet to record a failure, and no delete of the document is in progress. */
  ghost predicate Owns(s: State, p: ProcessId, d: DocumentId) {
    && IsWorker(s, p) && InFlight(s.rows, d)
    && s.procs[p].jobId in s.rows.jobs && s.rows.jobs[s.procs[p].jobId].status == Running
    && (forall q :: q != p ==> !Owner.Active(s.procs, q, d))
    && (forall q :: q in s.procs && s.procs[q].Delete? ==> s.procs[q].documentId != d)
  }

  ghost predicate WorkersOwn(s: State) {
    forall p, d :: Working(s, p, d) ==> Owns(s, p, d)
  }

  /** A worker keeps owning its document in the failure path, until it records the failure. */
  ghost predicate StartersOwn(s: State) {
    forall p, d :: Owner.Active(s.procs, p, d) ==> Owns(s, p, d)
  }

  /** A document is in the hands of at most one worker, cleanups included. */
  ghost predicate OneWorkerEach(s: State) {
    forall p, q, d :: CarriedBy(s.procs, p, d) && CarriedBy(s.procs, q, d) ==> p == q
  }

  lemma ProcessingIsOwned(preparer: Preparer, lostCommit: bool, s: State, p: ProcessId, d: DocumentId)
    requires Reachable(preparer, s) && Owner.OwnedAt(lostCommit, s, d) && Owner.Active(s.procs, p, d) && InFlight(s.rows, d)
    ensures Owns(s, p, d)
  {
    hide Reachable, RowsOk, LogOk, FilesOk, PointsOk, ProcessesOk, Owner.NoPoints;
    ReachableIsSafe(preparer, s);
    CarriedWork(preparer, s, p, d);
    CoupledState(s.rows, s.log, s.clock, d);
    forall q | q in s.procs && s.procs[q].Delete? ensures s.procs[q].documentId != d {
      AboutLogged(preparer, s, q, s.procs[q].documentId);
      DeletingStatus(preparer, s, s.procs[q].documentId);
    }
  }

  /** Single ownership, when an accepted job is reported as accepted: a working worker owns its
      document, and keeps it in its failure path until the failure is recorded, unless a READY
      commit had its answer lost. */
  lemma SoleOwner(preparer: Preparer, regime: Regime, run: seq<State>, i: nat, p: ProcessId, d: DocumentId)
    requires IsRun(preparer, regime, run) && i < |run| && !regime.lostEnqueue
    requires Owner.Active(run[i].procs, p, d) && (regime.lostCommit ==> Working(run[i], p, d))
    ensures Owns(run[i], p, d)
  {
    hide Safe, Reachable, IsRun, Owner.QueueOk, Owner.NoPoints, Owns;
    ReachedByRun(preparer, regime, run, i);
    Owner.RunsAreOwned(preparer, regime, run, i);
    assert Owner.OwnedAt(regime.lostCommit, run[i], d);
    ProcessingIsOwned(preparer, regime.lostCommit, run[i], p, d);
  }

  /** When deliveries of a job do not overlap, no two workers ever have the same document. */
  lemma WorkersDoNotMeet(preparer: Preparer, regime: Regime, run: seq<State>, i: nat)
    requires IsRun(preparer, regime, run) && i < |run| && !regime.overlap
    ensures OneWorkerEach(run[i])
  {
    hide Safe, Reachable, IsRun, CarriedBy;
    ReachedByRun(preparer, regime, run, i);
    WorkersAreUnique(preparer, regime, run, i);
    forall p, q, d | CarriedBy(run[i].procs, p, d) && CarriedBy(run[i].procs, q, d) ensures p == q {
      CarriersAreOne(preparer, run[i], p, q, d);
    }
  }

  lemma CarriersAreOne(preparer: Preparer, s: State, p: ProcessId, q: ProcessId, d: DocumentId)
    requires Reachable(preparer, s) && UniqueWorkers(s.procs) && CarriedBy(s.procs, p, d) && CarriedBy(s.procs, q, d)
    ensures p == q
  {
    hide Reachable;
    CarriedWork(preparer, s, p, d);
    CarriedWork(preparer, s, q, d);
  }

  ghost predicate NoOrphans(s: State) {
    forall c :: c in s.points ==> s.points[c].documentId in s.rows.docs
  }

  /** No orphans, when an accepted job is reported as accepted: every vector point belongs to a
      stored document. */
  lemma NoOrphanPoints(preparer: Preparer, regime: Regime, run: seq<State>, i: nat)
    requires IsRun(preparer, regime, run) && i < |run| && !regime.lostEnqueue
    ensures NoOrphans(run[i])
  {
    hide Safe, Reachable, IsRun, Owner.QueueOk;
    ReachedByRun(preparer, regime, run, i);
    RunsAreSafe(preparer, regime, run, i);
    Owner.RunsAreOwned(preparer, regime, run, i);
    PointOwners(preparer, run[i]);
    forall c | c in run[i].points ensures run[i].points[c].documentId in run[i].rows.docs {
      assert Owner.OwnedAt(regime.lostCommit, run[i], c.documentId);
    }
  }

  ghost predicate RowsFiled(s: State) {
    forall d :: d in s.rows.docs && s.rows.docs[d].status != Deleting ==>
      s.rows.docs[d].storageKey in s.files && s.files[s.rows.docs[d].storageKey] == s.rows.docs[d].sha256.of
  }

  /** When a committed insert is reported as committed, every document that is not on its way out
      has its uploaded file. */
  lemma RowsHaveFiles(preparer: Preparer, regime: Regime, run: seq<State>, i: nat)
    requires IsRun(preparer, regime, run) && i < |run| && !regime.lostInsert
    ensures RowsFiled(run[i])
  {
    hide Safe, Reachable, IsRun, Expected;
    var s := run[i];
    ReachedByRun(preparer, regime, run, i);
    RunsAreSafe(preparer, regime, run, i);
    Files.RunsKeepFiles(preparer, regime, run, i);
    forall d | d in s.rows.docs && s.rows.docs[d].status != Deleting
      ensures s.rows.docs[d].storageKey in s.files && s.files[s.rows.docs[d].storageKey] == s.rows.docs[d].sha256.of
    {
      assert Files.FiledAt(regime, s, d);
      FileOfRow(preparer, s, d);
    }
  }

  lemma FileOfRow(preparer: Preparer, s: State, d: DocumentId)
    requires Reachable(preparer, s) && d in s.rows.docs
    ensures var document := s.rows.docs[d];
            && d in s.log.catalog && document.storageKey == s.log.catalog[d].storageKey
            && (document.storageKey in s.files ==> s.files[document.storageKey] == document.sha256.of)
  {
    hide Reachable, RowsOk, PointsOk, ProcessesOk, Expected;
    ReachableIsSafe(preparer, s);
    DocumentFacts(preparer, s, d);
    UploadOfEntry(preparer, s, d);
  }

  /** No row, job or chunk of the document, and no file under the key. */
  ghost predicate RowsAndFileGone(s: State, d: DocumentId, key: StorageKey) {
    && d !in s.rows.docs && key !in s.files
    && (forall j :: j in s.rows.jobs ==> s.rows.jobs[j].documentId != d)
    && (forall c :: c in s.rows.chunks ==> s.rows.chunks[c].documentId != d)
  }

  ghost predicate PointsGone(s: State, d: DocumentId) {
    forall c :: c in s.points ==> s.points[c].documentId != d
  }

  lemma GoneLeavesNoRows(preparer: Preparer, regime: Regime, s: State, d: DocumentId)
    requires Safe(preparer, s) && Files.AllFiled(regime, s) && d in s.log.catalog && d !in s.rows.docs
    ensures RowsAndFileGone(s, d, s.log.catalog[d].storageKey)
  {
    hide LogOk, FilesOk, PointsOk, ProcessesOk, DocumentsOk, UniqueHashes;
    assert Files.FiledAt(regime, s, d);
    forall j | j in s.rows.jobs ensures s.rows.jobs[j].documentId != d {
      assert JobOk(s.rows, s.log, s.clock, j);
    }
    forall c | c in s.rows.chunks ensures s.rows.chunks[c].documentId != d {
      assert ChunkOk(s.rows, s.log, c);
    }
  }

  /** After a document's row is gone, however often its deletion had to be retried, nothing of it
      is left, nor will be at any later time: no row, chunk, job or file in any regime, and no
      vector point when an accepted job is reported as accepted. */
  lemma DeletionIsFinal(preparer: Preparer, regime: Regime, run: seq<State>, d: DocumentId, h: nat, i: nat, k: nat)
    requires IsRun(preparer, regime, run) && h <= i <= k < |run|
    requires d in run[h].rows.docs && d !in run[i].rows.docs
    ensures RowsAndFileGone(run[k], d, run[h].rows.docs[d].storageKey)
    ensures !regime.lostEnqueue ==> PointsGone(run[k], d)
  {
    hide Safe, Reachable, IsRun, Files.AllFiled, RowsAndFileGone;
    ReachedByRun(preparer, regime, run, h);
    RunsAreSafe(preparer, regime, run, h);
    ReachedByRun(preparer, regime, run, k);
    RunsAreSafe(preparer, regime, run, k);
    Files.RunsKeepFiles(preparer, regime, run, k);
    FileOfRow(preparer, run[h], d);
    CatalogFixed(preparer, regime, run, d, h, i);
    CatalogFixed(preparer, regime, run, d, i, k);
    GoneForever(preparer, regime, run, d, i, k);
    GoneLeavesNoRows(preparer, regime, run[k], d);
    if !regime.lostEnqueue { NoOrphanPoints(preparer, regime, run, k); }
  }

  lemma StepFixesCatalog(preparer: Preparer, regime: Regime, s: State, a: Action, d: DocumentId)
    requires Enabled(regime, s, a) && Safe(preparer, s) && d in s.log.catalog
    ensures var s' := Apply(preparer, regime, s, a); d in s'.log.catalog && s'.log.catalog[d] == s.log.catalog[d]
  {
    hide RowsOk, LogOk, FilesOk, PointsOk, ProcessesOk, ChunkRows, Prepared, CommitReady, BeginDelete, Expected, InsertSubmission;
    if a.BeginSubmit? || a.SubmitInsert? || a.WorkerCommit? || a.StartDelete? {
      if a.p in s.procs { ProcessFacts(preparer, s, a.p); }
    } else {
      hide Enabled, Apply;
      if a.SubmitLookup? || a.SubmitDiscard? || a.SubmitRecheck? || a.SubmitEnqueue? || a.SubmitDispatchFailed? || a.Crash? {
        QuietSubmit(preparer, regime, s, a);
      } else if a.DeleteCancel? || a.DeleteVectors? || a.DeleteFile? || a.DeleteRow? {
        QuietDelete(preparer, regime, s, a);
      } else {
        QuietWorker(preparer, regime, s, a);
      }
    }
  }

  lemma {:induction false} CatalogFixed(preparer: Preparer, regime: Regime, run: seq<State>, d: DocumentId, i: nat, k: nat)
    requires IsRun(preparer, regime, run) && i <= k < |run| && d in run[i].log.catalog
    ensures d in run[k].log.catalog && run[k].log.catalog[d] == run[i].log.catalog[d]
    decreases k
  {
    hide Enabled, Apply, Safe;
    if i < k {
      CatalogFixed(preparer, regime, run, d, i, k - 1);
      RunsAreSafe(preparer, regime, run, k - 1);
      var s, s' := run[k - 1], run[k];
      assert Next(preparer, regime, s, s');
      var a :| Enabled(regime, s, a) && s' == Apply(preparer, regime, s, a);
      StepFixesCatalog(preparer, regime, s, a, d);
    }
  }

  /** At any time at most one row holds a content hash. */
  lemma OneRowPerHash(preparer: Preparer, regime: Regime, run: seq<State>, i: nat, d: DocumentId, e: DocumentId)
    requires IsRun(preparer, regime, run) && i < |run|
    requires d in run[i].rows.docs && e in run[i].rows.docs && run[i].rows.docs[d].sha256 == run[i].rows.docs[e].sha256
    ensures d == e
  {
    hide DocumentsOk, JobsOk, ChunksOk, LogOk, FilesOk, PointsOk, ProcessesOk;
    RunsAreSafe(preparer, regime, run, i);
  }

  /** The submit has decided that the upload duplicates an existing document. */
  predicate Rejecting(pc: SubmitPc, existing: DocumentId) {
    pc == Discarding(Duplicate(existing)) || pc == Finished(RejectedDuplicate(existing))
  }

  /** The call of process p with this document is under way. */
  predicate SubmitInProgress(s: State, p: ProcessId, d: DocumentId) {
    p in s.procs && s.procs[p].Submit? && s.procs[p].document.id == d
  }

  predicate SameAt(s: State, s': State, p: ProcessId) {
    (p in s'.procs <==> p in s.procs) && (p in s.procs ==> s'.procs[p] == s.procs[p])
  }

  lemma OthersThanSubmit(preparer: Preparer, regime: Regime, s: State, a: Action, p: ProcessId)
    requires Enabled(regime, s, a) && p != a.p
    requires OfSubmit(a)
    ensures SameAt(s, Apply(preparer, regime, s, a), p)
  {
    hide MarkDispatchFailed, Expected, InsertSubmission;
  }

  lemma OthersThanWorker(preparer: Preparer, regime: Regime, s: State, a: Action, p: ProcessId)
    requires Enabled(regime, s, a) && p != a.p
    requires OfWorker(a)
    ensures SameAt(s, Apply(preparer, regime, s, a), p)
  {
    hide StartJob, MarkFailed, CommitReady, Upserted, ChunkRows, Prepared, FailureCode, PointsOfDocument;
  }

  lemma OthersThanDelete(preparer: Preparer, regime: Regime, s: State, a: Action, p: ProcessId)
    requires Enabled(regime, s, a) && p != a.p
    requires !OfSubmit(a) && !OfWorker(a)
    ensures SameAt(s, Apply(preparer, regime, s, a), p)
  {
    hide BeginDelete, PointsOfDocument, AfterCancel;
  }

  lemma OthersUntouched(preparer: Preparer, regime: Regime, s: State, a: Action, p: ProcessId)
    requires Enabled(regime, s, a) && p != a.p
    ensures var s' := Apply(preparer, regime, s, a);
            (p in s'.procs <==> p in s.procs) && (p in s.procs ==> s'.procs[p] == s.procs[p])
  {
    hide Enabled, Apply;
    if OfSubmit(a) {
      OthersThanSubmit(preparer, regime, s, a, p);
    } else if OfWorker(a) {
      OthersThanWorker(preparer, regime, s, a, p);
    } else {
      OthersThanDelete(preparer, regime, s, a, p);
    }
  }

  /** Only a lookup decides that the upload duplicates an existing document. */
  lemma RejectionStep(preparer: Preparer, regime: Regime, s: State, a: Action, existing: DocumentId)
    requires Enabled(regime, s, a)
    requires var s' := Apply(preparer, regime, s, a); a.p in s'.procs && s'.procs[a.p].Submit? && Rejecting(s'.procs[a.p].submitPc, existing)
    ensures var s', p := Apply(preparer, regime, s, a), a.p;
            && p in s.procs && s.procs[p].Submit? && s.procs[p].document == s'.procs[p].document
            && (Rejecting(s.procs[p].submitPc, existing) || s.rows.HoldsHash(existing, s.procs[p].document.sha256))
  {
    if OfSubmit(a) {
      hide MarkDispatchFailed, Expected, InsertSubmission;
    } else {
      hide Enabled, Apply;
      NoSubmitThere(preparer, regime, s, a);
    }
  }

  lemma SubmitIdentity(preparer: Preparer, regime: Regime, s: State, a: Action, p: ProcessId, existing: DocumentId)
    requires Enabled(regime, s, a)
    requires var s' := Apply(preparer, regime, s, a); p in s'.procs && s'.procs[p].Submit? && Rejecting(s'.procs[p].submitPc, existing)
    ensures var s' := Apply(preparer, regime, s, a);
            && p in s.procs && s.procs[p].Submit? && s.procs[p].document == s'.procs[p].document
            && (Rejecting(s.procs[p].submitPc, existing) || s.rows.HoldsHash(existing, s.procs[p].document.sha256))
  {
    if p == a.p {
      RejectionStep(preparer, regime, s, a, existing);
    } else {
      hide Apply, Enabled;
      OthersUntouched(preparer, regime, s, a, p);
    }
  }

  /** A submit rejected as a duplicate names a row that held the upload's hash at some moment of
      that very call, also when only the unique constraint noticed the duplicate. */
  lemma {:induction false} RejectionNamesAHolder(preparer: Preparer, regime: Regime, run: seq<State>, i: nat, p: ProcessId, existing: DocumentId)
    requires IsRun(preparer, regime, run) && i < |run|
    requires p in run[i].procs && run[i].procs[p].Submit? && Rejecting(run[i].procs[p].submitPc, existing)
    ensures exists m :: 0 <= m <= i && SubmitInProgress(run[m], p, run[i].procs[p].document.id)
              && run[m].rows.HoldsHash(existing, run[i].procs[p].document.sha256)
  {
    hide Enabled, Apply;
    if i > 0 {
      var s, s' := run[i - 1], run[i];
      assert Next(preparer, regime, s, s');
      var a :| Enabled(regime, s, a) && s' == Apply(preparer, regime, s, a);
      SubmitIdentity(preparer, regime, s, a, p, existing);
      if s.rows.HoldsHash(existing, s.procs[p].document.sha256) {
        assert SubmitInProgress(run[i - 1], p, s'.procs[p].document.id);
      } else {
        RejectionNamesAHolder(preparer, regime, run, i - 1, p, existing);
      }
    }
  }

  /** No submit that ended with an error other than a duplicate or a queue error has its row or its
      file left. */
  ghost predicate ErrorsLeaveNothing(s: State) {
    forall p :: p in s.procs && s.procs[p].Submit? && s.procs[p].submitPc == Finished(OtherError) ==>
      s.procs[p].document.storageKey !in s.files && s.procs[p].document.id !in s.rows.docs
  }

  /** A finished rejection as a duplicate has left neither row nor file behind, in any regime; a
      submit that ended with another error has not either, when no answer to insert or enqueue
      gets lost. */
  lemma RejectionLeavesNothing(preparer: Preparer, regime: Regime, run: seq<State>, i: nat, p: ProcessId)
    requires IsRun(preparer, regime, run) && i < |run|
    requires p in run[i].procs && run[i].procs[p].Submit? && run[i].procs[p].submitPc.Finished?
    requires var outcome := run[i].procs[p].submitPc.outcome;
             outcome.RejectedDuplicate? || (outcome == OtherError && !regime.lostInsert && !regime.lostEnqueue)
    ensures run[i].procs[p].document.storageKey !in run[i].files
    ensures run[i].procs[p].document.id !in run[i].rows.docs
  {
    hide RowsOk, LogOk, FilesOk, PointsOk, ProcessesOk, IsRun, Files.RowFiled;
    var d := run[i].procs[p].document.id;
    RunsAreSafe(preparer, regime, run, i);
    Files.RunsKeepFiles(preparer, regime, run, i);
    assert Files.FiledAt(regime, run[i], d);
    Files.OwnFiled(regime, run[i], p, d);
    LogOfDocument(run[i].rows, run[i].log, run[i].clock, d);
  }

  /** What an upserting or committing worker carries was prepared from its document. */
  lemma WorkerHoldsPrepared(preparer: Preparer, regime: Regime, run: seq<State>, i: nat, p: ProcessId)
    requires preparer.Valid() && IsRun(preparer, regime, run) && i < |run| && IsWorker(run[i], p)
    requires run[i].procs[p].workerPc.Upserting? || run[i].procs[p].workerPc.Committing?
    ensures Prepared(run[i].procs[p].workerPc.document.id, run[i].procs[p].workerPc.chunks)
  {
    hide RowsOk, LogOk, FilesOk, PointsOk, ProcessesOk;
    RunsAreSafe(preparer, regime, run, i);
    ProcessFacts(preparer, run[i], p);
  }
}
