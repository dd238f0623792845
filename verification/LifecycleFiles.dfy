/** Uploaded files: in every regime a deleted document leaves none and a rejected duplicate neither
    file nor row; every other stored document keeps its file unless the answer to an insert that
    was committed may get lost. */
module LifecycleFiles {
  import opened Results
  import opened Texts
  import opened Domain
  import opened Transactions
  import opened Lifecycle
  import opened LifecycleSafety
  import opened LifecycleSteps
  import opened LifecycleResults
  import opened LifecycleLocality
  import Owner = LifecycleOwnership

  /** Neither inserted nor saved any more. */
  predicate Gone(s: State, document: Document) {
    document.id !in s.log.catalog && document.storageKey !in s.files
  }

  predicate SubmitFiled(regime: Regime, s: State, document: Document, pc: SubmitPc) {
    match pc
    case LookingUp => document.storageKey in s.files
    case Inserting => document.storageKey in s.files
    case Discarding(cause) => document.id in s.log.catalog ==> cause == Other && regime.lostInsert
    case Rechecking => Gone(s, document)
    case Finished(RejectedDuplicate(_)) => Gone(s, document)
    case Finished(OtherError) => regime.lostInsert || regime.lostEnqueue || Gone(s, document)
    case _ => true
  }

  predicate Filed(regime: Regime, s: State, process: Process) {
    match process
    case Submit(document, _, pc) => SubmitFiled(regime, s, document, pc)
    case Worker(_, _) => true
    case Delete(_, key, pc) => pc.DroppingRow? ==> key !in s.files
  }

  /** A document that is gone has no file; one that is not on its way out has its own. */
  predicate RowFiled(lostInsert: bool, s: State, d: DocumentId) {
    d in s.log.catalog ==>
      var key, status := s.log.catalog[d].storageKey, StatusAt(s, d);
      && (status == None ==> key !in s.files)
      && (status != None && status != Some(Deleting) && !lostInsert ==> key in s.files)
  }

  ghost predicate FiledAt(regime: Regime, s: State, d: DocumentId) {
    && RowFiled(regime.lostInsert, s, d)
    && forall p :: p in s.procs && About(s.procs[p], d) ==> Filed(regime, s, s.procs[p])
  }

  ghost predicate AllFiled(regime: Regime, s: State) {
    forall d :: FiledAt(regime, s, d)
  }

  // ---- documents the step is not about

  lemma ElsewhereFiled(preparer: Preparer, regime: Regime, s: State, s': State, p: ProcessId, d: DocumentId, e: DocumentId)
    requires Reachable(preparer, s) && Local(s, s', p, d) && e != d && FiledAt(regime, s, e)
    ensures FiledAt(regime, s', e)
  {
    hide Reachable, StatusAt;
    if e in s.log.catalog { KeyOfEntry(preparer, s, e); }
    forall q | q in s'.procs && About(s'.procs[q], e) ensures Filed(regime, s', s'.procs[q]) {
      assert q != p && q in s.procs && s'.procs[q] == s.procs[q];
      AboutLogged(preparer, s, q, e);
    }
  }

  // ---- the document the step is about

  /** Files stay, and the row does not come back from DELETING. */
  predicate FilesStay(s: State, s': State, d: DocumentId) {
    && s'.files == s.files && s'.log.catalog == s.log.catalog
    && (StatusAt(s', d) == None <==> StatusAt(s, d) == None)
    && (StatusAt(s, d) == Some(Deleting) ==> StatusAt(s', d) == Some(Deleting))
  }

  lemma ProcessesFiled(regime: Regime, s: State, s': State, p: ProcessId, d: DocumentId)
    requires FiledAt(regime, s, d) && FilesStay(s, s', d) && OthersStay(s, s', p)
    requires p in s'.procs ==> Filed(regime, s', s'.procs[p])
    ensures FiledAt(regime, s', d)
  {
    hide StatusAt;
  }

  lemma TransactionFiled(preparer: Preparer, regime: Regime, s: State, a: Action)
    requires Enabled(regime, s, a) && Reachable(preparer, s) && AllFiled(regime, s)
    requires a.WorkerStart? || a.WorkerCommit? || a.WorkerMarkFailed?
    ensures FiledAt(regime, Apply(preparer, regime, s, a), Subject(s, a))
  {
    hide Reachable, FiledAt, StartEffect, CommitEffect, MarkFailedEffect, ChunkRows, Prepared;
    var s', d := Apply(preparer, regime, s, a), Subject(s, a);
    assert FiledAt(regime, s, d);
    match a
    case WorkerStart(p, now) => StartMoves(preparer, s, p, now); ProcessesFiled(regime, s, s', p, d);
    case WorkerCommit(p, ack, now) => CommitMoves(preparer, s, p, ack, now); ProcessesFiled(regime, s, s', p, d);
    case WorkerMarkFailed(p, now) => MarkFailedMoves(preparer, s, p, now); ProcessesFiled(regime, s, s', p, d);
  }

  lemma WorkerFiled(preparer: Preparer, regime: Regime, s: State, a: Action)
    requires Enabled(regime, s, a) && AllFiled(regime, s)
    requires a.WorkerRead? || a.WorkerPrepare? || a.WorkerUpsert? || a.WorkerCleanup? || a.Deliver? || a.Crash?
    ensures FiledAt(regime, Apply(preparer, regime, s, a), Subject(s, a))
  {
    hide FiledAt, ChunkRows, Prepared, Upserted, PointsOfDocument;
    var s', d := Apply(preparer, regime, s, a), Subject(s, a);
    assert FiledAt(regime, s, d);
    assert s' == s.(procs := s'.procs, points := s'.points, queue := s'.queue, delivered := s'.delivered);
    assert OthersStay(s, s', a.p) && (a.p in s'.procs ==> s'.procs[a.p].Worker? || a.Crash?);
    hide Apply, Enabled;
    ProcessesFiled(regime, s, s', a.p, d);
  }

  lemma BeginFiled(preparer: Preparer, regime: Regime, s: State, p: ProcessId, d: DocumentId, j: JobId, filename: string,
                   mediaType: MediaType, content: Bytes, now: Timestamp)
    requires Reachable(preparer, s) && p !in s.procs && d !in s.used && s.clock <= now && !IsBlank(filename)
    ensures FiledAt(regime, BeginSubmitEffect(s, p, d, j, filename, mediaType, content, now), d)
  {
    hide Reachable, StatusAt;
    LogDomainsOf(preparer, s);
    var s' := BeginSubmitEffect(s, p, d, j, filename, mediaType, content, now);
    forall q | q in s'.procs && About(s'.procs[q], d) ensures Filed(regime, s', s'.procs[q]) {
      if q != p { AboutLogged(preparer, s, q, d); }
    }
  }

  /** A submit that moves on: no other process but its deletes knows the document. */
  lemma SubmitAlone(preparer: Preparer, regime: Regime, s: State, s': State, p: ProcessId, d: DocumentId)
    requires Reachable(preparer, s) && FiledAt(regime, s, d) && p in s.procs && s.procs[p].Submit? && s.procs[p].document.id == d
    requires OthersStay(s, s', p) && s'.files.Keys <= s.files.Keys && RowFiled(regime.lostInsert, s', d)
    requires p in s'.procs && Filed(regime, s', s'.procs[p])
    ensures FiledAt(regime, s', d)
  {
    hide Reachable, StatusAt, RowFiled;
    forall q | q in s'.procs && About(s'.procs[q], d) ensures Filed(regime, s', s'.procs[q]) {
      if q != p && s.procs[q].Submit? { SubmitsDiffer(preparer, s, p, q); }
    }
  }

  lemma SubmitIsNew(preparer: Preparer, s: State, p: ProcessId)
    requires Reachable(preparer, s) && (SubmitAt(s, p, LookingUp) || SubmitAt(s, p, Inserting))
    ensures s.procs[p].document.id !in s.log.catalog
  {
    hide Reachable, RowsOk, LogOk, FilesOk, PointsOk, ProcessesOk;
    ReachableIsSafe(preparer, s);
    ProcessFacts(preparer, s, p);
  }

  lemma InsertFiled(preparer: Preparer, regime: Regime, s: State, p: ProcessId, ack: Ack)
    requires SubmitAt(s, p, Inserting) || (SubmitAt(s, p, LookingUp) && ack == Refused)
    requires Reachable(preparer, s) && FiledAt(regime, s, s.procs[p].document.id) && Admits(regime.lostInsert, ack)
    ensures FiledAt(regime, InsertEffect(preparer, s, p, ack), s.procs[p].document.id)
  {
    hide Reachable, InsertEffect;
    var s', d := InsertEffect(preparer, s, p, ack), s.procs[p].document.id;
    InsertMoves(preparer, s, p, ack);
    SubmitIsNew(preparer, s, p);
    assert Filed(regime, s, s.procs[p]);
    SubmitAlone(preparer, regime, s, s', p, d);
  }

  lemma DispatchFiled(preparer: Preparer, regime: Regime, s: State, p: ProcessId, now: Timestamp)
    requires Reachable(preparer, s) && SubmitAt(s, p, Dispatching) && s.clock <= now && FiledAt(regime, s, s.procs[p].document.id)
    requires !regime.lostEnqueue ==> Owner.Owned(regime.lostCommit, s)
    ensures FiledAt(regime, DispatchFailedEffect(s, p, now), s.procs[p].document.id)
  {
    hide Reachable, DispatchFailedEffect, Owner.QueueOk, Owner.NoPoints, FiledAt;
    var s', d := DispatchFailedEffect(s, p, now), s.procs[p].document.id;
    DispatchMoves(preparer, s, p, now);
    if !regime.lostEnqueue {
      assert Owner.OwnedAt(regime.lostCommit, s, d) && Owner.Queueing(s.procs, p, d);
    }
    ProcessesFiled(regime, s, s', p, d);
  }

  lemma DiscardFiled(preparer: Preparer, regime: Regime, s: State, p: ProcessId)
    requires Reachable(preparer, s) && p in s.procs && s.procs[p].Submit? && s.procs[p].submitPc.Discarding?
    requires FiledAt(regime, s, s.procs[p].document.id)
    ensures FiledAt(regime, DiscardEffect(s, p), s.procs[p].document.id)
  {
    hide Reachable;
    var s', d := DiscardEffect(s, p), s.procs[p].document.id;
    assert Filed(regime, s, s.procs[p]);
    SubmitAlone(preparer, regime, s, s', p, d);
  }

  lemma SubmitStepFiled(preparer: Preparer, regime: Regime, s: State, a: Action)
    requires Enabled(regime, s, a) && Reachable(preparer, s) && AllFiled(regime, s)
    requires !regime.lostEnqueue ==> Owner.Owned(regime.lostCommit, s)
    requires a.SubmitLookup? || a.SubmitRecheck? || a.SubmitInsert? || a.SubmitDiscard? || a.SubmitEnqueue? || a.SubmitDispatchFailed?
    ensures FiledAt(regime, Apply(preparer, regime, s, a), Subject(s, a))
  {
    hide Reachable, FiledAt, InsertEffect, DispatchFailedEffect, DiscardEffect, Owner.Owned;
    var s', d := Apply(preparer, regime, s, a), Subject(s, a);
    assert FiledAt(regime, s, d);
    match a
    case SubmitInsert(p, ack) => InsertFiled(preparer, regime, s, p, ack);
    case SubmitDispatchFailed(p, now) => DispatchFiled(preparer, regime, s, p, now);
    case SubmitDiscard(p) => DiscardFiled(preparer, regime, s, p);
    case SubmitLookup(p, found) =>
      SubmitIsNew(preparer, s, p);
      OwnFiled(regime, s, p, d);
      ProcessesFiled(regime, s, s', p, d);
    case SubmitRecheck(p, found) =>
      OwnFiled(regime, s, p, d);
      ProcessesFiled(regime, s, s', p, d);
    case SubmitEnqueue(p, ack) => ProcessesFiled(regime, s, s', p, d);
  }

  lemma OwnFiled(regime: Regime, s: State, p: ProcessId, d: DocumentId)
    requires FiledAt(regime, s, d) && p in s.procs && About(s.procs[p], d)
    ensures Filed(regime, s, s.procs[p])
  {
  }

  // ---- deletes

  lemma DropFileFiled(preparer: Preparer, regime: Regime, s: State, p: ProcessId, ok: bool)
    requires Reachable(preparer, s) && p in s.procs && s.procs[p].Delete? && FiledAt(regime, s, s.procs[p].documentId)
    ensures FiledAt(regime, DropFileEffect(s, p, ok), s.procs[p].documentId)
  {
    hide Reachable;
    var s', d := DropFileEffect(s, p, ok), s.procs[p].documentId;
    AboutLogged(preparer, s, p, d);
    DeletingStatus(preparer, s, d);
    forall q | q in s'.procs && About(s'.procs[q], d) ensures Filed(regime, s', s'.procs[q]) {
      if q != p && (SubmitAt(s, q, LookingUp) || SubmitAt(s, q, Inserting)) { SubmitIsNew(preparer, s, q); }
    }
  }

  lemma DropRowFiled(preparer: Preparer, regime: Regime, s: State, p: ProcessId)
    requires Reachable(preparer, s) && p in s.procs && s.procs[p].Delete? && s.procs[p].deletePc == DroppingRow
    requires FiledAt(regime, s, s.procs[p].documentId)
    ensures FiledAt(regime, s.(rows := s.rows.DeleteDocument(s.procs[p].documentId)).Exit(p), s.procs[p].documentId)
  {
    hide Reachable;
    var d := s.procs[p].documentId;
    AboutLogged(preparer, s, p, d);
    OwnFiled(regime, s, p, d);
  }

  lemma DeleteStepFiled(preparer: Preparer, regime: Regime, s: State, a: Action)
    requires Enabled(regime, s, a) && Reachable(preparer, s) && AllFiled(regime, s)
    requires a.StartDelete? || a.DeleteCancel? || a.DeleteVectors? || a.DeleteFile? || a.DeleteRow?
    ensures FiledAt(regime, Apply(preparer, regime, s, a), Subject(s, a))
  {
    hide Reachable, StartDeleteEffect, DropFileEffect, FiledAt, PointsOfDocument;
    var s', d := Apply(preparer, regime, s, a), Subject(s, a);
    assert FiledAt(regime, s, d);
    match a
    case StartDelete(p, _, now) =>
      StartDeleteMoves(preparer, s, p, d, now);
      ProcessesFiled(regime, s, s', p, d);
    case DeleteFile(p, ok) => DropFileFiled(preparer, regime, s, p, ok);
    case DeleteRow(p) => DropRowFiled(preparer, regime, s, p);
    case DeleteCancel(p, _) => ProcessesFiled(regime, s, s', p, d);
    case DeleteVectors(p, _, _) => ProcessesFiled(regime, s, s', p, d);
  }

  // ---- all steps

  lemma SubjectFiled(preparer: Preparer, regime: Regime, s: State, a: Action)
    requires Enabled(regime, s, a) && Reachable(preparer, s) && AllFiled(regime, s)
    requires !regime.lostEnqueue ==> Owner.Owned(regime.lostCommit, s)
    ensures FiledAt(regime, Apply(preparer, regime, s, a), Subject(s, a))
  {
    hide Reachable, AllFiled, FiledAt, BeginSubmitEffect, Owner.Owned;
    match a
    case BeginSubmit(p, d, j, filename, mediaType, content, now) =>
      BeginFiled(preparer, regime, s, p, d, j, filename, mediaType, content, now);
    case _ =>
      hide Enabled, Apply, Subject;
      if a.StartDelete? || a.DeleteCancel? || a.DeleteVectors? || a.DeleteFile? || a.DeleteRow? {
        DeleteStepFiled(preparer, regime, s, a);
      } else if a.SubmitLookup? || a.SubmitRecheck? || a.SubmitInsert? || a.SubmitDiscard? || a.SubmitEnqueue? || a.SubmitDispatchFailed? {
        SubmitStepFiled(preparer, regime, s, a);
      } else if a.WorkerStart? || a.WorkerCommit? || a.WorkerMarkFailed? {
        TransactionFiled(preparer, regime, s, a);
      } else {
        WorkerFiled(preparer, regime, s, a);
      }
  }

  lemma StepKeepsFiles(preparer: Preparer, regime: Regime, s: State, a: Action)
    requires Enabled(regime, s, a) && Reachable(preparer, s) && AllFiled(regime, s)
    requires !regime.lostEnqueue ==> Owner.Owned(regime.lostCommit, s)
    ensures AllFiled(regime, Apply(preparer, regime, s, a))
  {
    hide Reachable, Apply, Enabled, FiledAt, Local, Owner.Owned;
    var s' := Apply(preparer, regime, s, a);
    StepIsLocal(preparer, regime, s, a);
    forall d ensures FiledAt(regime, s', d) {
      if d == Subject(s, a) {
        SubjectFiled(preparer, regime, s, a);
      } else {
        ElsewhereFiled(preparer, regime, s, s', a.p, Subject(s, a), d);
      }
    }
  }

  lemma {:induction false} RunsKeepFiles(preparer: Preparer, regime: Regime, run: seq<State>, i: nat)
    requires IsRun(preparer, regime, run) && i < |run|
    ensures AllFiled(regime, run[i])
  {
    hide Reachable, Apply, Enabled;
    if i > 0 {
      hide AllFiled, Owner.Owned;
      RunsKeepFiles(preparer, regime, run, i - 1);
      ReachedByRun(preparer, regime, run, i - 1);
      if !regime.lostEnqueue { Owner.RunsAreOwned(preparer, regime, run, i - 1); }
      var s, s' := run[i - 1], run[i];
      assert Next(preparer, regime, s, s');
      var a :| Enabled(regime, s, a) && s' == Apply(preparer, regime, s, a);
      StepKeepsFiles(preparer, regime, s, a);
    }
  }
}
