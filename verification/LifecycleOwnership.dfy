/** When an accepted job is always reported as accepted, a document belongs to one worker at a time:
    it stays PROCESSING until that worker ends it, and nothing is written to the index for a
    document that is being deleted. Deliveries may overlap, and other answers may get lost. */
module LifecycleOwnership {
  import opened Results
  import opened Texts
  import opened Domain
  import opened Transactions
  import opened Lifecycle
  import opened LifecycleSafety
  import opened LifecycleSteps
  import opened LifecycleResults
  import opened LifecycleLocality

  /** The queue may still hand out this job, or has done so. */
  predicate Pending(s: State, j: JobId) {
    j in s.queue || j in s.delivered
  }

  /** The submit has not got its job into the queue. */
  predicate Unqueued(pc: SubmitPc) {
    pc.LookingUp? || pc.Inserting? || pc.Enqueueing? || pc.Dispatching?
  }

  ghost predicate QueueOk(s: State) {
    && (forall p :: p in s.procs && s.procs[p].Submit? && Unqueued(s.procs[p].submitPc) ==> !Pending(s, s.procs[p].job.id))
    && (forall p :: p in s.procs && s.procs[p].Worker? ==> s.procs[p].jobId in s.delivered)
  }

  /** Nothing of this document is in the index. */
  ghost predicate NoPoints(points: map<ChunkId, Point>, d: DocumentId) {
    forall c :: c in points ==> c.documentId != d
  }

  /** A worker that has started the document and not yet recorded a failure of its own. */
  predicate Active(procs: map<ProcessId, Process>, p: ProcessId, d: DocumentId) {
    CarriedBy(procs, p, d) && !procs[p].workerPc.Cleaning?
  }

  predicate Queueing(procs: map<ProcessId, Process>, p: ProcessId, d: DocumentId) {
    && p in procs && procs[p].Submit? && procs[p].document.id == d
    && (procs[p].submitPc.Enqueueing? || procs[p].submitPc.Dispatching?)
  }

  predicate PastVectors(procs: map<ProcessId, Process>, p: ProcessId, d: DocumentId) {
    && p in procs && procs[p].Delete? && procs[p].documentId == d
    && (procs[p].deletePc.DroppingFile? || procs[p].deletePc.DroppingRow?)
  }

  /** A worker's document is PROCESSING; a READY commit whose answer got lost leaves the worker
      in its failure path with the document on its further way. */
  predicate ActiveOk(lostCommit: bool, status: Option<DocumentStatus>, pc: WorkerPc) {
    if pc.Failing? && lostCommit then status != Some(Queued) && status != Some(Failed) else status == Some(Processing)
  }

  ghost predicate OwnedAt(lostCommit: bool, s: State, d: DocumentId) {
    var status := StatusAt(s, d);
    && (forall p :: Active(s.procs, p, d) ==> ActiveOk(lostCommit, status, s.procs[p].workerPc))
    && (status == Some(Processing) ==> forall p, q :: Active(s.procs, p, d) && Active(s.procs, q, d) ==> p == q)
    && (forall p :: Queueing(s.procs, p, d) ==> status == Some(Queued))
    && (forall p :: PastVectors(s.procs, p, d) ==> NoPoints(s.points, d))
    && (status == None ==> NoPoints(s.points, d))
  }

  ghost predicate Owned(lostCommit: bool, s: State) {
    QueueOk(s) && forall d :: OwnedAt(lostCommit, s, d)
  }

  // ---- the queue

  /** The queue gains at most the job of the submit that enqueues it. */
  ghost predicate QueueGrows(s: State, s': State, j: JobId) {
    && s.delivered <= s'.delivered
    && forall k :: Pending(s', k) ==> Pending(s, k) || k == j
  }

  lemma QueueMoves(preparer: Preparer, regime: Regime, s: State, a: Action)
    requires Enabled(regime, s, a) && !regime.lostEnqueue
    ensures var s' := Apply(preparer, regime, s, a);
            if a.SubmitEnqueue? && a.ack == Acknowledged then QueueGrows(s, s', s.procs[a.p].job.id)
            else s.delivered <= s'.delivered && forall k :: Pending(s', k) ==> Pending(s, k)
  {
    if a.SubmitEnqueue? || a.Deliver? || a.DeleteCancel? {
      hide AfterCancel;
    } else {
      hide Enabled, Apply;
      QueueStays(preparer, regime, s, a);
    }
  }

  lemma OwnJobWaits(preparer: Preparer, regime: Regime, s: State, a: Action)
    requires Enabled(regime, s, a) && Reachable(preparer, s) && QueueOk(s) && !regime.lostEnqueue
    requires var procs := Apply(preparer, regime, s, a).procs; a.p in procs && procs[a.p].Submit? && Unqueued(procs[a.p].submitPc)
    ensures var s' := Apply(preparer, regime, s, a);
            !(a.SubmitEnqueue? && a.ack == Acknowledged) && !Pending(s, s'.procs[a.p].job.id)
  {
    hide Reachable;
    if OfSubmit(a) {
      SubmitJobWaits(preparer, regime, s, a);
    } else {
      hide Enabled, Apply;
      NoSubmitThere(preparer, regime, s, a);
    }
  }

  lemma SubmitJobWaits(preparer: Preparer, regime: Regime, s: State, a: Action)
    requires Enabled(regime, s, a) && Reachable(preparer, s) && QueueOk(s) && !regime.lostEnqueue && OfSubmit(a)
    requires var procs := Apply(preparer, regime, s, a).procs; a.p in procs && procs[a.p].Submit? && Unqueued(procs[a.p].submitPc)
    ensures var s' := Apply(preparer, regime, s, a);
            !(a.SubmitEnqueue? && a.ack == Acknowledged) && !Pending(s, s'.procs[a.p].job.id)
  {
    hide Reachable, InsertEffect, DispatchFailedEffect;
    match a
    case BeginSubmit(_, _, _, _, _, _, _) => QueueIsUsed(preparer, s);
    case SubmitInsert(p, ack) => InsertMoves(preparer, s, p, ack);
    case SubmitDispatchFailed(p, now) => DispatchMoves(preparer, s, p, now);
    case _ =>
  }

  lemma QueueIsUsed(preparer: Preparer, s: State)
    requires Reachable(preparer, s)
    ensures s.queue <= s.used && s.delivered <= s.used
  {
    hide Reachable, RowsOk, LogOk, FilesOk, PointsOk, ProcessesOk;
    ReachableIsSafe(preparer, s);
  }

  lemma DeliveredJob(preparer: Preparer, regime: Regime, s: State, a: Action)
    requires Enabled(regime, s, a) && QueueOk(s) && !regime.lostEnqueue
    requires var procs := Apply(preparer, regime, s, a).procs; a.p in procs && procs[a.p].Worker?
    ensures var s' := Apply(preparer, regime, s, a); s'.procs[a.p].jobId in s'.delivered
  {
    JobStays(preparer, regime, s, a);
    if !a.Deliver? {
      hide Enabled, Apply;
      QueueMoves(preparer, regime, s, a);
    }
  }

  lemma StepKeepsQueue(preparer: Preparer, regime: Regime, s: State, a: Action)
    requires Enabled(regime, s, a) && Reachable(preparer, s) && QueueOk(s) && !regime.lostEnqueue
    ensures QueueOk(Apply(preparer, regime, s, a))
  {
    hide Reachable, Apply;
    var s' := Apply(preparer, regime, s, a);
    StepIsLocal(preparer, regime, s, a);
    QueueMoves(preparer, regime, s, a);
    hide Enabled, Local;
    forall q | q in s'.procs && s'.procs[q].Submit? && Unqueued(s'.procs[q].submitPc) ensures !Pending(s', s'.procs[q].job.id) {
      if q == a.p {
        OwnJobWaits(preparer, regime, s, a);
      } else {
        OtherStays(s, s', a.p, Subject(s, a), q);
        if a.SubmitEnqueue? && a.ack == Acknowledged { SubmitsDiffer(preparer, s, a.p, q); }
      }
    }
    forall q | q in s'.procs && s'.procs[q].Worker? ensures s'.procs[q].jobId in s'.delivered {
      if q == a.p { DeliveredJob(preparer, regime, s, a); } else { OtherStays(s, s', a.p, Subject(s, a), q); }
    }
  }

  lemma OtherStays(s: State, s': State, p: ProcessId, d: DocumentId, q: ProcessId)
    requires Local(s, s', p, d) && q != p && q in s'.procs
    ensures q in s.procs && s'.procs[q] == s.procs[q]
  {
  }

  // ---- documents the step is not about

  lemma ElsewhereOwned(lostCommit: bool, s: State, s': State, p: ProcessId, d: DocumentId, e: DocumentId)
    requires Local(s, s', p, d) && e != d && OwnedAt(lostCommit, s, e)
    ensures OwnedAt(lostCommit, s', e)
  {
    hide StatusAt, ActiveOk;
    assert forall q :: Active(s'.procs, q, e) ==> q != p && Active(s.procs, q, e) && s'.procs[q] == s.procs[q];
    assert forall q :: Queueing(s'.procs, q, e) ==> Queueing(s.procs, q, e);
    assert forall q :: PastVectors(s'.procs, q, e) ==> PastVectors(s.procs, q, e);
  }

  // ---- the document the step is about

  lemma NothingMoved(lostCommit: bool, s: State, s': State, d: DocumentId)
    requires OwnedAt(lostCommit, s, d) && StatusAt(s', d) == StatusAt(s, d)
    requires NoPoints(s.points, d) ==> NoPoints(s'.points, d)
    requires forall p :: Active(s'.procs, p, d) ==> Active(s.procs, p, d) && s'.procs[p] == s.procs[p]
    requires forall p :: Queueing(s'.procs, p, d) ==> Queueing(s.procs, p, d)
    requires forall p :: PastVectors(s'.procs, p, d) ==> PastVectors(s.procs, p, d)
    ensures OwnedAt(lostCommit, s', d)
  {
    hide StatusAt, ActiveOk, Active, Queueing, PastVectors, NoPoints;
  }

  /** The row goes to a status in which nobody needs it, with points and deletes as they were. */
  lemma RowLeft(lostCommit: bool, s: State, s': State, d: DocumentId)
    requires OwnedAt(lostCommit, s, d) && StatusAt(s', d).Some? && StatusAt(s', d) != Some(Processing) && s'.points == s.points
    requires forall p :: Active(s'.procs, p, d) ==> ActiveOk(lostCommit, StatusAt(s', d), s'.procs[p].workerPc)
    requires forall p :: !Queueing(s'.procs, p, d)
    requires forall p :: PastVectors(s'.procs, p, d) ==> PastVectors(s.procs, p, d)
    ensures OwnedAt(lostCommit, s', d)
  {
    hide StatusAt, ActiveOk, Active, Queueing, PastVectors, NoPoints;
  }

  lemma NobodyYet(preparer: Preparer, s: State, d: DocumentId)
    requires Reachable(preparer, s) && d !in s.log.catalog
    ensures forall p :: !Active(s.procs, p, d) && !PastVectors(s.procs, p, d)
    ensures NoPoints(s.points, d)
  {
    hide Reachable;
    PointOwners(preparer, s);
    forall p ensures !Active(s.procs, p, d) && !PastVectors(s.procs, p, d) {
      if Active(s.procs, p, d) || PastVectors(s.procs, p, d) { AboutLogged(preparer, s, p, d); }
    }
  }

  lemma OneSubmit(preparer: Preparer, s: State, p: ProcessId, q: ProcessId, d: DocumentId)
    requires Reachable(preparer, s) && p in s.procs && s.procs[p].Submit? && s.procs[p].document.id == d && Queueing(s.procs, q, d)
    ensures q == p
  {
    hide Reachable;
    if q != p { SubmitsDiffer(preparer, s, p, q); }
  }

  lemma InsertOwned(preparer: Preparer, lostCommit: bool, s: State, p: ProcessId, ack: Ack)
    requires SubmitAt(s, p, Inserting) || (SubmitAt(s, p, LookingUp) && ack == Refused)
    requires Reachable(preparer, s) && OwnedAt(lostCommit, s, s.procs[p].document.id)
    ensures OwnedAt(lostCommit, InsertEffect(preparer, s, p, ack), s.procs[p].document.id)
  {
    hide Reachable, InsertEffect, ActiveOk;
    var s', d := InsertEffect(preparer, s, p, ack), s.procs[p].document.id;
    InsertMoves(preparer, s, p, ack);
    if SameRows(s, s') {
      NothingMoved(lostCommit, s, s', d);
    } else {
      NobodyYet(preparer, s, d);
      assert forall q :: Active(s'.procs, q, d) ==> Active(s.procs, q, d);
      assert forall q :: PastVectors(s'.procs, q, d) ==> PastVectors(s.procs, q, d);
    }
  }

  lemma DispatchOwned(preparer: Preparer, lostCommit: bool, s: State, p: ProcessId, now: Timestamp)
    requires Reachable(preparer, s) && SubmitAt(s, p, Dispatching) && s.clock <= now && OwnedAt(lostCommit, s, s.procs[p].document.id)
    ensures OwnedAt(lostCommit, DispatchFailedEffect(s, p, now), s.procs[p].document.id)
  {
    hide Reachable, DispatchFailedEffect, NoPoints;
    var s', d := DispatchFailedEffect(s, p, now), s.procs[p].document.id;
    DispatchMoves(preparer, s, p, now);
    assert Queueing(s.procs, p, d);
    forall q ensures !Queueing(s'.procs, q, d) && (Active(s'.procs, q, d) ==> Active(s.procs, q, d)) {
      if Queueing(s'.procs, q, d) { OneSubmit(preparer, s, p, q, d); }
    }
    if SameRows(s, s') {
      NothingMoved(lostCommit, s, s', d);
    } else {
      RowLeft(lostCommit, s, s', d);
    }
  }

  lemma SubmitOwned(preparer: Preparer, regime: Regime, lostCommit: bool, s: State, a: Action)
    requires Enabled(regime, s, a) && Reachable(preparer, s) && Owned(lostCommit, s)
    requires a.SubmitLookup? || a.SubmitRecheck? || a.SubmitInsert? || a.SubmitDiscard? || a.SubmitEnqueue? || a.SubmitDispatchFailed?
    ensures OwnedAt(lostCommit, Apply(preparer, regime, s, a), Subject(s, a))
  {
    hide Reachable, InsertEffect, DispatchFailedEffect, OwnedAt, QueueOk;
    var s', d := Apply(preparer, regime, s, a), Subject(s, a);
    assert OwnedAt(lostCommit, s, d);
    match a
    case SubmitInsert(p, ack) => InsertOwned(preparer, lostCommit, s, p, ack);
    case SubmitDispatchFailed(p, now) => DispatchOwned(preparer, lostCommit, s, p, now);
    case _ => NothingMoved(lostCommit, s, s', d);
  }

  lemma QuietOwned(preparer: Preparer, regime: Regime, lostCommit: bool, s: State, a: Action)
    requires Enabled(regime, s, a) && Owned(lostCommit, s)
    requires a.BeginSubmit? || a.Deliver? || a.Crash?
    ensures OwnedAt(lostCommit, Apply(preparer, regime, s, a), Subject(s, a))
  {
    hide OwnedAt, QueueOk;
    var s', d := Apply(preparer, regime, s, a), Subject(s, a);
    assert OwnedAt(lostCommit, s, d);
    NothingMoved(lostCommit, s, s', d);
  }

  // ---- workers

  /** A submit that still waits to queue the job of a document, and a worker with that job. */
  lemma JobHandedOut(preparer: Preparer, s: State, p: ProcessId, q: ProcessId, d: DocumentId)
    requires Reachable(preparer, s) && QueueOk(s) && p in s.procs && s.procs[p].Worker? && WorksOn(s.log, s.procs[p].jobId, d)
    ensures !Queueing(s.procs, q, d)
  {
    hide Reachable, RowsOk, LogOk, FilesOk, PointsOk, ProcessesOk;
    ReachableIsSafe(preparer, s);
    if Queueing(s.procs, q, d) {
      ProcessFacts(preparer, s, q);
    }
  }

  lemma StartOwned(preparer: Preparer, lostCommit: bool, s: State, p: ProcessId, now: Timestamp)
    requires Reachable(preparer, s) && Owned(lostCommit, s) && p in s.procs && s.procs[p].Worker? && s.procs[p].workerPc == Starting && s.clock <= now
    ensures OwnedAt(lostCommit, StartEffect(s, p, now), DocumentOfJob(s.rows, s.procs[p].jobId))
  {
    hide Reachable, StartEffect, DocumentOfJob, NoPoints, QueueOk;
    var s', d := StartEffect(s, p, now), DocumentOfJob(s.rows, s.procs[p].jobId);
    StartMoves(preparer, s, p, now);
    assert OwnedAt(lostCommit, s, d);
    if s' == s.(clock := now).Exit(p) {
      NothingMoved(lostCommit, s, s', d);
    } else {
      forall q ensures !Active(s.procs, q, d) && !Queueing(s.procs, q, d) {
        JobHandedOut(preparer, s, p, q, d);
      }
      assert forall q :: Active(s'.procs, q, d) ==> q == p;
      assert forall q :: Queueing(s'.procs, q, d) ==> Queueing(s.procs, q, d);
      assert forall q :: PastVectors(s'.procs, q, d) ==> PastVectors(s.procs, q, d);
    }
  }

  /** A PROCESSING document is not being deleted, and its submit is done. */
  lemma ProcessingIsBusy(preparer: Preparer, lostCommit: bool, s: State, d: DocumentId, q: ProcessId)
    requires Reachable(preparer, s) && OwnedAt(lostCommit, s, d) && StatusAt(s, d) == Some(Processing)
    ensures !Queueing(s.procs, q, d) && !PastVectors(s.procs, q, d)
  {
    hide Reachable, NoPoints;
    if PastVectors(s.procs, q, d) {
      AboutLogged(preparer, s, q, d);
      DeletingStatus(preparer, s, d);
    }
  }

  /** The owner of a PROCESSING document goes on with it, lets go, or is done. */
  lemma OwnerMoves(preparer: Preparer, lostCommit: bool, s: State, s': State, p: ProcessId, d: DocumentId)
    requires Reachable(preparer, s) && OwnedAt(lostCommit, s, d) && Active(s.procs, p, d) && StatusAt(s, d) == Some(Processing)
    requires OthersStay(s, s', p) && StatusAt(s', d).Some? && (p in s'.procs ==> s'.procs[p].Worker?)
    requires Active(s'.procs, p, d) ==> ActiveOk(lostCommit, StatusAt(s', d), s'.procs[p].workerPc)
    ensures OwnedAt(lostCommit, s', d)
  {
    hide Reachable, NoPoints, StatusAt, ActiveOk, OwnedAt;
    forall q ensures !Queueing(s'.procs, q, d) && !PastVectors(s'.procs, q, d) && (Active(s'.procs, q, d) ==> q == p) {
      ProcessingIsBusy(preparer, lostCommit, s, d, q);
      if q != p && Active(s.procs, q, d) { OneOwner(lostCommit, s, d, p, q); }
    }
    OnlyOwner(lostCommit, s', p, d);
  }

  lemma OneOwner(lostCommit: bool, s: State, d: DocumentId, p: ProcessId, q: ProcessId)
    requires OwnedAt(lostCommit, s, d) && Active(s.procs, p, d) && Active(s.procs, q, d) && StatusAt(s, d) == Some(Processing)
    ensures p == q
  {
  }

  lemma OnlyOwner(lostCommit: bool, s: State, p: ProcessId, d: DocumentId)
    requires StatusAt(s, d).Some?
    requires forall q :: !Queueing(s.procs, q, d) && !PastVectors(s.procs, q, d) && (Active(s.procs, q, d) ==> q == p)
    requires Active(s.procs, p, d) ==> ActiveOk(lostCommit, StatusAt(s, d), s.procs[p].workerPc)
    ensures OwnedAt(lostCommit, s, d)
  {
    hide NoPoints, StatusAt, ActiveOk;
  }

  lemma WorkOwned(preparer: Preparer, regime: Regime, lostCommit: bool, s: State, a: Action)
    requires Enabled(regime, s, a) && Reachable(preparer, s) && Owned(lostCommit, s)
    requires a.WorkerRead? || a.WorkerPrepare? || a.WorkerUpsert?
    ensures OwnedAt(lostCommit, Apply(preparer, regime, s, a), Subject(s, a))
  {
    hide Reachable, Prepared, ChunkRows, Upserted, QueueOk, OwnedAt, Local;
    var p, d, s' := a.p, Subject(s, a), Apply(preparer, regime, s, a);
    OnlyItsDocument(s.rows, s.procs[p]);
    WorkingIsProcessing(lostCommit, s, p, d);
    assert StatusAt(s', d) == Some(Processing) && OthersStay(s, s', p) && p in s'.procs && s'.procs[p].Worker?;
    hide Apply, Enabled, OthersStay, StatusAt;
    OwnerMoves(preparer, lostCommit, s, s', p, d);
  }

  lemma WorkingIsProcessing(lostCommit: bool, s: State, p: ProcessId, d: DocumentId)
    requires Owned(lostCommit, s) && Active(s.procs, p, d) && !s.procs[p].workerPc.Failing?
    ensures OwnedAt(lostCommit, s, d) && StatusAt(s, d) == Some(Processing)
  {
    hide NoPoints, QueueOk;
    assert OwnedAt(lostCommit, s, d);
  }

  lemma CommitOwned(preparer: Preparer, lostCommit: bool, s: State, p: ProcessId, ack: Ack, now: Timestamp)
    requires Reachable(preparer, s) && Owned(lostCommit, s) && p in s.procs && s.procs[p].Worker? && s.procs[p].workerPc.Committing?
    requires Prepared(s.procs[p].workerPc.document.id, s.procs[p].workerPc.chunks) && s.clock <= now && (ack == Unacknowledged ==> lostCommit)
    ensures OwnedAt(lostCommit, CommitEffect(s, p, ack, now), s.procs[p].workerPc.document.id)
  {
    hide Reachable, CommitEffect, ChunkRows, Prepared, QueueOk, OwnedAt;
    var s', d := CommitEffect(s, p, ack, now), s.procs[p].workerPc.document.id;
    WorkingIsProcessing(lostCommit, s, p, d);
    CommitMoves(preparer, s, p, ack, now);
    OwnerMoves(preparer, lostCommit, s, s', p, d);
  }

  lemma MarkFailedOwned(preparer: Preparer, lostCommit: bool, s: State, p: ProcessId, now: Timestamp)
    requires Reachable(preparer, s) && Owned(lostCommit, s) && p in s.procs && s.procs[p].Worker? && s.procs[p].workerPc.Failing? && s.clock <= now
    ensures OwnedAt(lostCommit, MarkFailedEffect(s, p, now), s.procs[p].workerPc.documentId)
  {
    hide Reachable, MarkFailedEffect, QueueOk, OwnedAt;
    var s', d := MarkFailedEffect(s, p, now), s.procs[p].workerPc.documentId;
    assert OwnedAt(lostCommit, s, d);
    MarkFailedMoves(preparer, s, p, now);
    if StatusAt(s, d) == Some(Processing) {
      OwnerMoves(preparer, lostCommit, s, s', p, d);
    } else {
      NothingMoved(lostCommit, s, s', d);
    }
  }

  lemma CleanupOwned(lostCommit: bool, s: State, p: ProcessId, removed: set<ChunkId>)
    requires Owned(lostCommit, s) && p in s.procs && s.procs[p].Worker? && s.procs[p].workerPc.Cleaning?
    ensures OwnedAt(lostCommit, s.(points := s.points - removed).Exit(p), s.procs[p].workerPc.documentId)
  {
    hide OwnedAt, QueueOk;
    var d := s.procs[p].workerPc.documentId;
    assert OwnedAt(lostCommit, s, d);
    NothingMoved(lostCommit, s, s.(points := s.points - removed).Exit(p), d);
  }

  // ---- deletes

  lemma StartDeleteOwned(preparer: Preparer, lostCommit: bool, s: State, p: ProcessId, d: DocumentId, now: Timestamp)
    requires Reachable(preparer, s) && OwnedAt(lostCommit, s, d) && p !in s.procs && s.clock <= now
    ensures OwnedAt(lostCommit, StartDeleteEffect(s, p, d, now), d)
  {
    hide Reachable, StartDeleteEffect, NoPoints;
    var s' := StartDeleteEffect(s, p, d, now);
    StartDeleteMoves(preparer, s, p, d, now);
    if s' == s.(clock := now) {
      NothingMoved(lostCommit, s, s', d);
    } else {
      assert forall q :: Active(s'.procs, q, d) ==> Active(s.procs, q, d);
      assert forall q :: Queueing(s'.procs, q, d) ==> Queueing(s.procs, q, d);
      RowLeft(lostCommit, s, s', d);
    }
  }

  lemma DropVectorsOwned(preparer: Preparer, lostCommit: bool, s: State, p: ProcessId, removed: set<ChunkId>, ok: bool)
    requires Reachable(preparer, s) && p in s.procs && s.procs[p].Delete? && s.procs[p].deletePc == DroppingVectors
    requires OwnedAt(lostCommit, s, s.procs[p].documentId)
    requires ok ==> removed == PointsOfDocument(s, s.procs[p].documentId)
    ensures OwnedAt(lostCommit, DropVectorsEffect(s, p, removed, ok), s.procs[p].documentId)
  {
    hide Reachable, ActiveOk;
    var s', d := DropVectorsEffect(s, p, removed, ok), s.procs[p].documentId;
    if ok {
      PointOwners(preparer, s);
      assert NoPoints(s'.points, d);
      hide NoPoints, PointsOfDocument;
      assert forall q :: Active(s'.procs, q, d) ==> Active(s.procs, q, d) && s'.procs[q] == s.procs[q];
      assert forall q :: Queueing(s'.procs, q, d) ==> Queueing(s.procs, q, d);
    } else {
      NothingMoved(lostCommit, s, s', d);
    }
  }

  lemma DropRowOwned(preparer: Preparer, lostCommit: bool, s: State, p: ProcessId)
    requires Reachable(preparer, s) && p in s.procs && s.procs[p].Delete? && s.procs[p].deletePc == DroppingRow
    requires OwnedAt(lostCommit, s, s.procs[p].documentId)
    ensures OwnedAt(lostCommit, s.(rows := s.rows.DeleteDocument(s.procs[p].documentId)).Exit(p), s.procs[p].documentId)
  {
    hide Reachable, NoPoints;
    var d := s.procs[p].documentId;
    var s' := s.(rows := s.rows.DeleteDocument(d)).Exit(p);
    AboutLogged(preparer, s, p, d);
    DeletingStatus(preparer, s, d);
    assert PastVectors(s.procs, p, d);
    assert forall q :: Active(s'.procs, q, d) ==> Active(s.procs, q, d) && s'.procs[q] == s.procs[q];
    assert forall q :: Queueing(s'.procs, q, d) ==> Queueing(s.procs, q, d);
  }

  lemma DeleteOwned(preparer: Preparer, regime: Regime, lostCommit: bool, s: State, a: Action)
    requires Enabled(regime, s, a) && Reachable(preparer, s) && Owned(lostCommit, s)
    requires a.StartDelete? || a.DeleteCancel? || a.DeleteVectors? || a.DeleteFile? || a.DeleteRow?
    ensures OwnedAt(lostCommit, Apply(preparer, regime, s, a), Subject(s, a))
  {
    hide Reachable, StartDeleteEffect, DropVectorsEffect, OwnedAt, QueueOk;
    var s', d := Apply(preparer, regime, s, a), Subject(s, a);
    assert OwnedAt(lostCommit, s, d);
    match a
    case StartDelete(p, _, now) => StartDeleteOwned(preparer, lostCommit, s, p, d, now);
    case DeleteVectors(p, removed, ok) => DropVectorsOwned(preparer, lostCommit, s, p, removed, ok);
    case DeleteRow(p) => DropRowOwned(preparer, lostCommit, s, p);
    case DeleteCancel(_, _) => NothingMoved(lostCommit, s, s', d);
    case DeleteFile(_, _) => NothingMoved(lostCommit, s, s', d);
  }

  // ---- all steps

  lemma SubjectOwned(preparer: Preparer, regime: Regime, s: State, a: Action)
    requires Enabled(regime, s, a) && Reachable(preparer, s) && Owned(regime.lostCommit, s)
    ensures OwnedAt(regime.lostCommit, Apply(preparer, regime, s, a), Subject(s, a))
  {
    hide Reachable, Owned, OwnedAt, StartEffect, CommitEffect, MarkFailedEffect;
    match a
    case WorkerStart(p, now) => StartOwned(preparer, regime.lostCommit, s, p, now);
    case WorkerCommit(p, ack, now) => CommitOwned(preparer, regime.lostCommit, s, p, ack, now);
    case WorkerMarkFailed(p, now) => MarkFailedOwned(preparer, regime.lostCommit, s, p, now);
    case WorkerCleanup(p, removed) => CleanupOwned(regime.lostCommit, s, p, removed);
    case _ =>
      hide Enabled, Apply, Subject;
      if a.WorkerRead? || a.WorkerPrepare? || a.WorkerUpsert? {
        WorkOwned(preparer, regime, regime.lostCommit, s, a);
      } else if a.StartDelete? || a.DeleteCancel? || a.DeleteVectors? || a.DeleteFile? || a.DeleteRow? {
        DeleteOwned(preparer, regime, regime.lostCommit, s, a);
      } else if a.BeginSubmit? || a.Deliver? || a.Crash? {
        QuietOwned(preparer, regime, regime.lostCommit, s, a);
      } else {
        SubmitOwned(preparer, regime, regime.lostCommit, s, a);
      }
  }

  lemma StepKeepsOwned(preparer: Preparer, regime: Regime, s: State, a: Action)
    requires Enabled(regime, s, a) && Reachable(preparer, s) && Owned(regime.lostCommit, s) && !regime.lostEnqueue
    ensures Owned(regime.lostCommit, Apply(preparer, regime, s, a))
  {
    hide Reachable, Apply, Enabled, OwnedAt, QueueOk, Local;
    var s' := Apply(preparer, regime, s, a);
    StepKeepsQueue(preparer, regime, s, a);
    StepIsLocal(preparer, regime, s, a);
    forall d ensures OwnedAt(regime.lostCommit, s', d) {
      if d == Subject(s, a) {
        SubjectOwned(preparer, regime, s, a);
      } else {
        ElsewhereOwned(regime.lostCommit, s, s', a.p, Subject(s, a), d);
      }
    }
  }

  lemma {:induction false} RunsAreOwned(preparer: Preparer, regime: Regime, run: seq<State>, i: nat)
    requires IsRun(preparer, regime, run) && i < |run| && !regime.lostEnqueue
    ensures Owned(regime.lostCommit, run[i])
  {
    hide Reachable, Apply, Enabled;
    if i > 0 {
      hide Owned;
      RunsAreOwned(preparer, regime, run, i - 1);
      ReachedByRun(preparer, regime, run, i - 1);
      var s, s' := run[i - 1], run[i];
      assert Next(preparer, regime, s, s');
      var a :| Enabled(regime, s, a) && s' == Apply(preparer, regime, s, a);
      StepKeepsOwned(preparer, regime, s, a);
    }
  }
}
