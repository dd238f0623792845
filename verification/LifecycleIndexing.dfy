/** When deliveries do not overlap and a stored READY commit is always reported, a READY document
    has all its points: its worker is the only one, and cleans up only after a recorded failure. */
module LifecycleIndexing {
  import opened Results
  import opened Texts
  import opened Domain
  import opened Transactions
  import opened Lifecycle
  import opened LifecycleSafety
  import opened LifecycleSteps
  import opened LifecycleResults
  import opened LifecycleLocality

  ghost predicate UniqueWorkers(procs: map<ProcessId, Process>) {
    forall p, q :: p in procs && q in procs && procs[p].Worker? && procs[q].Worker? && p != q ==>
      procs[p].jobId != procs[q].jobId
  }

  /** What a worker past `_start_job` can rely on: before it ends, its document is not READY;
      with its points written they are all there while the document is PROCESSING; and once it
      cleans up, the document is neither PROCESSING nor READY. */
  predicate Guarded(s: State, d: DocumentId, pc: WorkerPc) {
    var status := StatusAt(s, d);
    match pc
    case Starting => true
    case Committing(document, chunks) =>
      && status != Some(Ready)
      && (status == Some(Processing) && Prepared(document.id, chunks) ==> ChunkRows(document.id, chunks).Keys <= s.points.Keys)
    case Cleaning(_) => status != Some(Ready) && status != Some(Processing)
    case _ => status != Some(Ready)
  }

  predicate Indexed(s: State, d: DocumentId) {
    d in s.log.expected && s.log.expected[d].Keys <= s.points.Keys
  }

  ghost predicate IndexOk(s: State, d: DocumentId) {
    && (StatusAt(s, d) == Some(Ready) ==> Indexed(s, d))
    && (forall p :: CarriedBy(s.procs, p, d) ==> Guarded(s, d, s.procs[p].workerPc))
  }

  /** What the regime is needed for. */
  ghost predicate IndexSafe(s: State) {
    UniqueWorkers(s.procs) && forall d :: IndexOk(s, d)
  }

  // ---- one worker for each job

  /** No other worker has the job of process p. */
  ghost predicate SoleJob(s: State, p: ProcessId, j: JobId) {
    forall q :: q in s.procs && q != p && s.procs[q].Worker? ==> s.procs[q].jobId != j
  }

  lemma JobOfWorker(preparer: Preparer, regime: Regime, s: State, a: Action)
    requires Enabled(regime, s, a) && UniqueWorkers(s.procs) && !regime.overlap
    requires var procs := Apply(preparer, regime, s, a).procs; a.p in procs && procs[a.p].Worker?
    ensures SoleJob(s, a.p, Apply(preparer, regime, s, a).procs[a.p].jobId)
  {
    hide Apply;
    JobStays(preparer, regime, s, a);
    if !a.Deliver? { JobIsSole(s, a.p); }
  }

  lemma JobIsSole(s: State, p: ProcessId)
    requires UniqueWorkers(s.procs) && p in s.procs && s.procs[p].Worker?
    ensures SoleJob(s, p, s.procs[p].jobId)
  {
  }

  lemma UniqueKept(s: State, s': State, p: ProcessId)
    requires UniqueWorkers(s.procs) && OthersStay(s, s', p)
    requires p in s'.procs && s'.procs[p].Worker? ==> SoleJob(s, p, s'.procs[p].jobId)
    ensures UniqueWorkers(s'.procs)
  {
  }

  lemma StepKeepsUnique(preparer: Preparer, regime: Regime, s: State, a: Action)
    requires Enabled(regime, s, a) && Reachable(preparer, s) && UniqueWorkers(s.procs) && !regime.overlap
    ensures UniqueWorkers(Apply(preparer, regime, s, a).procs)
  {
    hide Reachable, Apply, Enabled, UniqueWorkers, OthersStay, SoleJob, StatusAt, Only;
    var s' := Apply(preparer, regime, s, a);
    StepIsLocal(preparer, regime, s, a);
    if a.p in s'.procs && s'.procs[a.p].Worker? { JobOfWorker(preparer, regime, s, a); }
    UniqueKept(s, s', a.p);
  }

  lemma {:induction false} WorkersAreUnique(preparer: Preparer, regime: Regime, run: seq<State>, i: nat)
    requires IsRun(preparer, regime, run) && i < |run| && !regime.overlap
    ensures UniqueWorkers(run[i].procs)
  {
    hide Reachable, Apply, Enabled;
    if i > 0 {
      hide UniqueWorkers;
      WorkersAreUnique(preparer, regime, run, i - 1);
      ReachedByRun(preparer, regime, run, i - 1);
      var s, s' := run[i - 1], run[i];
      assert Next(preparer, regime, s, s');
      var a :| Enabled(regime, s, a) && s' == Apply(preparer, regime, s, a);
      StepKeepsUnique(preparer, regime, s, a);
    }
  }

  // ---- documents the step is not about

  lemma ElsewhereIndexed(preparer: Preparer, s: State, s': State, p: ProcessId, d: DocumentId, e: DocumentId)
    requires Reachable(preparer, s) && Local(s, s', p, d) && e != d && IndexOk(s, e)
    ensures IndexOk(s', e)
  {
    hide Reachable, Prepared, ChunkRows;
    if StatusAt(s', e) == Some(Ready) {
      PointsStay(preparer, s, s', p, d, e);
    }
    forall q | CarriedBy(s'.procs, q, e) ensures Guarded(s', e, s'.procs[q].workerPc) {
      assert q != p && CarriedBy(s.procs, q, e) && s'.procs[q] == s.procs[q];
    }
  }

  lemma PointsStay(preparer: Preparer, s: State, s': State, p: ProcessId, d: DocumentId, e: DocumentId)
    requires Reachable(preparer, s) && Local(s, s', p, d) && e != d && Indexed(s, e)
    ensures Indexed(s', e)
  {
    hide Reachable, RowsOk, LogOk, FilesOk, PointsOk, ProcessesOk;
    ReachableIsSafe(preparer, s);
    ExpectedOwner(preparer, s.rows, s.log, s.used);
  }

  // ---- the document the step is about

  lemma NeitherReadyNorProcessing(s: State, d: DocumentId)
    requires StatusAt(s, d) != Some(Ready) && StatusAt(s, d) != Some(Processing)
    ensures IndexOk(s, d)
  {
    hide StatusAt, ChunkRows, Prepared;
  }

  lemma NothingMoved(s: State, s': State, d: DocumentId)
    requires IndexOk(s, d) && StatusAt(s', d) == StatusAt(s, d)
    requires s'.points == s.points && s'.log.expected == s.log.expected
    requires forall p :: CarriedBy(s'.procs, p, d) ==> CarriedBy(s.procs, p, d) && s'.procs[p] == s.procs[p]
    ensures IndexOk(s', d)
  {
    hide StatusAt, ChunkRows, Prepared;
  }

  /** A worker past `_start_job` is alone with its document. */
  lemma AloneWith(preparer: Preparer, s: State, p: ProcessId, d: DocumentId, q: ProcessId)
    requires Reachable(preparer, s) && UniqueWorkers(s.procs) && p in s.procs && s.procs[p].Worker?
    requires WorksOn(s.log, s.procs[p].jobId, d) && q != p
    ensures !CarriedBy(s.procs, q, d)
  {
    hide Reachable;
    if CarriedBy(s.procs, q, d) {
      CarriedWork(preparer, s, q, d);
    }
  }

  lemma OnlyWorker(preparer: Preparer, s: State, s': State, p: ProcessId, d: DocumentId)
    requires Reachable(preparer, s) && UniqueWorkers(s.procs) && OthersStay(s, s', p)
    requires p in s.procs && s.procs[p].Worker? && WorksOn(s.log, s.procs[p].jobId, d)
    requires CarriedBy(s'.procs, p, d) ==> Guarded(s', d, s'.procs[p].workerPc)
    requires StatusAt(s', d) == Some(Ready) ==> Indexed(s', d)
    ensures IndexOk(s', d)
  {
    hide Reachable, Guarded, Indexed, StatusAt, UniqueWorkers;
    forall q | CarriedBy(s'.procs, q, d) ensures Guarded(s', d, s'.procs[q].workerPc) {
      if q != p { AloneWith(preparer, s, p, d, q); }
    }
  }

  lemma StartIndexed(preparer: Preparer, s: State, p: ProcessId, now: Timestamp)
    requires Reachable(preparer, s) && IndexSafe(s) && p in s.procs && s.procs[p].Worker? && s.procs[p].workerPc == Starting && s.clock <= now
    ensures IndexOk(StartEffect(s, p, now), DocumentOfJob(s.rows, s.procs[p].jobId))
  {
    hide Reachable, StartEffect, UniqueWorkers, ChunkRows, Prepared, DocumentOfJob;
    var s', d := StartEffect(s, p, now), DocumentOfJob(s.rows, s.procs[p].jobId);
    StartMoves(preparer, s, p, now);
    assert IndexOk(s, d);
    if s' == s.(clock := now).Exit(p) {
      NothingMoved(s, s', d);
    } else {
      OnlyWorker(preparer, s, s', p, d);
    }
  }

  /** The steps of a worker between `_start_job` and its closing transaction. */
  lemma WorkIndexed(preparer: Preparer, regime: Regime, s: State, a: Action)
    requires Enabled(regime, s, a) && Reachable(preparer, s) && IndexSafe(s)
    requires a.WorkerRead? || a.WorkerPrepare? || a.WorkerUpsert?
    ensures IndexOk(Apply(preparer, regime, s, a), Subject(s, a))
  {
    hide Reachable, UniqueWorkers, Prepared, ChunkRows, Local, UpsertEffect, ReadEffect, PrepareEffect;
    var p := a.p;
    var d := Subject(s, a);
    OnlyItsDocument(s.rows, s.procs[p]);
    CarriedWork(preparer, s, p, d);
    assert IndexOk(s, d) && CarriedBy(s.procs, p, d) && Guarded(s, d, s.procs[p].workerPc);
    match a
    case WorkerRead(_, ok) => ReadGuarded(preparer, s, p, ok); OnlyWorker(preparer, s, ReadEffect(s, p, ok), p, d);
    case WorkerPrepare(_, failure) =>
      PrepareGuarded(preparer, s, p, failure);
      OnlyWorker(preparer, s, PrepareEffect(preparer, s, p, failure), p, d);
    case WorkerUpsert(_, applied, ok) =>
      UpsertGuarded(s, p, applied, ok);
      OnlyWorker(preparer, s, UpsertEffect(s, p, applied, ok), p, d);
  }

  ghost predicate Keeps(s: State, s': State, p: ProcessId, d: DocumentId) {
    && OthersStay(s, s', p) && StatusAt(s', d) == StatusAt(s, d) != Some(Ready)
    && (CarriedBy(s'.procs, p, d) ==> Guarded(s', d, s'.procs[p].workerPc))
  }

  lemma ReadGuarded(preparer: Preparer, s: State, p: ProcessId, ok: bool)
    requires p in s.procs && s.procs[p].Worker? && s.procs[p].workerPc.Reading?
    requires StatusAt(s, s.procs[p].workerPc.documentId) != Some(Ready)
    ensures Keeps(s, ReadEffect(s, p, ok), p, s.procs[p].workerPc.documentId)
  {
  }

  lemma PrepareGuarded(preparer: Preparer, s: State, p: ProcessId, failure: Option<FailureCause>)
    requires p in s.procs && s.procs[p].Worker? && s.procs[p].workerPc.Preparing?
    requires StatusAt(s, s.procs[p].workerPc.document.id) != Some(Ready)
    ensures Keeps(s, PrepareEffect(preparer, s, p, failure), p, s.procs[p].workerPc.document.id)
  {
    hide ChunkRows, Prepared;
  }

  lemma UpsertGuarded(s: State, p: ProcessId, applied: set<ChunkId>, ok: bool)
    requires p in s.procs && s.procs[p].Worker? && s.procs[p].workerPc.Upserting?
    requires var pc := s.procs[p].workerPc;
             && Prepared(pc.document.id, pc.chunks) && StatusAt(s, pc.document.id) != Some(Ready)
             && (ok ==> applied == ChunkRows(pc.document.id, pc.chunks).Keys)
    ensures Keeps(s, UpsertEffect(s, p, applied, ok), p, s.procs[p].workerPc.document.id)
  {
    hide ChunkRows, Prepared;
    var pc := s.procs[p].workerPc;
    if ok {
      assert Upserted(pc.document, pc.chunks, applied).Keys == ChunkRows(pc.document.id, pc.chunks).Keys;
    }
  }

  lemma CommitIndexed(preparer: Preparer, s: State, p: ProcessId, ack: Ack, now: Timestamp)
    requires Reachable(preparer, s) && IndexSafe(s) && p in s.procs && s.procs[p].Worker? && s.procs[p].workerPc.Committing?
    requires Prepared(s.procs[p].workerPc.document.id, s.procs[p].workerPc.chunks) && s.clock <= now && ack != Unacknowledged
    ensures IndexOk(CommitEffect(s, p, ack, now), s.procs[p].workerPc.document.id)
  {
    hide Reachable, CommitEffect, UniqueWorkers, ChunkRows, Prepared;
    var s', d := CommitEffect(s, p, ack, now), s.procs[p].workerPc.document.id;
    assert IndexOk(s, d) && CarriedBy(s.procs, p, d);
    CommitMoves(preparer, s, p, ack, now);
    CarriedWork(preparer, s, p, d);
    OnlyWorker(preparer, s, s', p, d);
  }

  lemma MarkFailedIndexed(preparer: Preparer, s: State, p: ProcessId, now: Timestamp)
    requires Reachable(preparer, s) && IndexSafe(s) && p in s.procs && s.procs[p].Worker? && s.procs[p].workerPc.Failing? && s.clock <= now
    ensures IndexOk(MarkFailedEffect(s, p, now), s.procs[p].workerPc.documentId)
  {
    hide Reachable, MarkFailedEffect, UniqueWorkers, ChunkRows, Prepared;
    var d := s.procs[p].workerPc.documentId;
    assert IndexOk(s, d) && CarriedBy(s.procs, p, d);
    MarkFailedMoves(preparer, s, p, now);
    NeitherReadyNorProcessing(MarkFailedEffect(s, p, now), d);
  }

  lemma CleanupIndexed(s: State, p: ProcessId, removed: set<ChunkId>)
    requires IndexSafe(s) && p in s.procs && s.procs[p].Worker? && s.procs[p].workerPc.Cleaning?
    ensures IndexOk(s.(points := s.points - removed).Exit(p), s.procs[p].workerPc.documentId)
  {
    hide UniqueWorkers, ChunkRows, Prepared;
    var d := s.procs[p].workerPc.documentId;
    assert IndexOk(s, d) && CarriedBy(s.procs, p, d);
    NeitherReadyNorProcessing(s.(points := s.points - removed).Exit(p), d);
  }

  lemma SubmitIndexed(preparer: Preparer, regime: Regime, s: State, a: Action)
    requires Enabled(regime, s, a) && Reachable(preparer, s) && IndexSafe(s)
    requires a.SubmitLookup? || a.SubmitRecheck? || a.SubmitInsert? || a.SubmitDiscard? || a.SubmitEnqueue? || a.SubmitDispatchFailed?
    ensures IndexOk(Apply(preparer, regime, s, a), Subject(s, a))
  {
    hide Reachable, UniqueWorkers, InsertEffect, DispatchFailedEffect, IndexOk;
    var s', d := Apply(preparer, regime, s, a), Subject(s, a);
    assert IndexOk(s, d);
    match a
    case SubmitInsert(p, ack) =>
      InsertMoves(preparer, s, p, ack);
      if SameRows(s, s') { NothingMoved(s, s', d); } else { NeitherReadyNorProcessing(s', d); }
    case SubmitDispatchFailed(p, now) =>
      DispatchMoves(preparer, s, p, now);
      if SameRows(s, s') { NothingMoved(s, s', d); } else { NeitherReadyNorProcessing(s', d); }
    case _ => NothingMoved(s, s', d);
  }

  lemma DeleteIndexed(preparer: Preparer, regime: Regime, s: State, a: Action)
    requires Enabled(regime, s, a) && Reachable(preparer, s) && IndexSafe(s)
    requires a.StartDelete? || a.DeleteCancel? || a.DeleteVectors? || a.DeleteFile? || a.DeleteRow?
    ensures IndexOk(Apply(preparer, regime, s, a), Subject(s, a))
  {
    hide Reachable, UniqueWorkers, StartDeleteEffect, IndexOk, AfterCancel;
    var s', d := Apply(preparer, regime, s, a), Subject(s, a);
    assert IndexOk(s, d);
    match a
    case StartDelete(p, _, now) =>
      StartDeleteMoves(preparer, s, p, d, now);
      if s' == s.(clock := now) { NothingMoved(s, s', d); } else { NeitherReadyNorProcessing(s', d); }
    case _ =>
      AboutLogged(preparer, s, a.p, d);
      DeletingStatus(preparer, s, d);
      NeitherReadyNorProcessing(s', d);
  }

  lemma SubjectIndexed(preparer: Preparer, regime: Regime, s: State, a: Action)
    requires Enabled(regime, s, a) && Reachable(preparer, s) && IndexSafe(s) && !regime.lostCommit
    ensures IndexOk(Apply(preparer, regime, s, a), Subject(s, a))
  {
    hide Reachable, IndexSafe, IndexOk, StartEffect, CommitEffect, MarkFailedEffect;
    match a
    case WorkerStart(p, now) => StartIndexed(preparer, s, p, now);
    case WorkerCommit(p, ack, now) => CommitIndexed(preparer, s, p, ack, now);
    case WorkerMarkFailed(p, now) => MarkFailedIndexed(preparer, s, p, now);
    case WorkerCleanup(p, removed) => CleanupIndexed(s, p, removed);
    case _ =>
      hide Enabled, Apply, Subject;
      if a.WorkerRead? || a.WorkerPrepare? || a.WorkerUpsert? {
        WorkIndexed(preparer, regime, s, a);
      } else if a.StartDelete? || a.DeleteCancel? || a.DeleteVectors? || a.DeleteFile? || a.DeleteRow? {
        DeleteIndexed(preparer, regime, s, a);
      } else if a.BeginSubmit? || a.Deliver? || a.Crash? {
        QuietIndexed(preparer, regime, s, a);
      } else {
        SubmitIndexed(preparer, regime, s, a);
      }
  }

  lemma QuietIndexed(preparer: Preparer, regime: Regime, s: State, a: Action)
    requires Enabled(regime, s, a) && IndexSafe(s)
    requires a.BeginSubmit? || a.Deliver? || a.Crash?
    ensures IndexOk(Apply(preparer, regime, s, a), Subject(s, a))
  {
    hide UniqueWorkers, IndexOk;
    var s', d := Apply(preparer, regime, s, a), Subject(s, a);
    assert IndexOk(s, d);
    NothingMoved(s, s', d);
  }

  lemma StepKeepsIndex(preparer: Preparer, regime: Regime, s: State, a: Action)
    requires Enabled(regime, s, a) && Reachable(preparer, s) && IndexSafe(s)
    requires !regime.overlap && !regime.lostCommit
    ensures IndexSafe(Apply(preparer, regime, s, a))
  {
    hide Reachable, Apply, Enabled, UniqueWorkers, IndexOk, Local;
    var s' := Apply(preparer, regime, s, a);
    StepIsLocal(preparer, regime, s, a);
    StepKeepsUnique(preparer, regime, s, a);
    forall d ensures IndexOk(s', d) {
      if d == Subject(s, a) {
        SubjectIndexed(preparer, regime, s, a);
      } else {
        ElsewhereIndexed(preparer, s, s', a.p, Subject(s, a), d);
      }
    }
  }

  lemma {:induction false} RunsKeepIndex(preparer: Preparer, regime: Regime, run: seq<State>, i: nat)
    requires IsRun(preparer, regime, run) && i < |run| && !regime.overlap && !regime.lostCommit
    ensures IndexSafe(run[i])
  {
    hide Reachable, Apply, Enabled;
    if i > 0 {
      hide IndexSafe;
      RunsKeepIndex(preparer, regime, run, i - 1);
      ReachedByRun(preparer, regime, run, i - 1);
      var s, s' := run[i - 1], run[i];
      assert Next(preparer, regime, s, s');
      var a :| Enabled(regime, s, a) && s' == Apply(preparer, regime, s, a);
      StepKeepsIndex(preparer, regime, s, a);
    }
  }
}
