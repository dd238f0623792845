/** The exact part of the regime each guarantee rests on: it holds in every state of every run if
    and only if these answers and deliveries behave. */
module ExactRegimes {
  import opened Results
  import opened Texts
  import opened Domain
  import opened Transactions
  import opened Lifecycle
  import opened LifecycleSafety
  import opened LifecycleResults
  import opened LifecycleLocality
  import opened LifecycleGuarantees
  import opened CounterRuns
  import Owner = LifecycleOwnership

  /** The claim holds in every state of every run. */
  ghost predicate Always(preparer: Preparer, regime: Regime, claim: State -> bool) {
    forall run: seq<State>, i: nat :: IsRun(preparer, regime, run) && i < |run| ==> claim(run[i])
  }

  lemma Refuted(preparer: Preparer, regime: Regime, claim: State -> bool, run: seq<State>, s: State)
    requires Reaches(preparer, regime, run, s) && !claim(s)
    ensures !Always(preparer, regime, claim)
  {
    hide Next, Init;
    assert !claim(run[|run| - 1]);
  }

  /** READY always means indexed exactly when deliveries of a job do not overlap and the READY
      commit is reported; a lost answer to insert or enqueue does no harm. One upload that can be
      prepared is enough to break it otherwise. */
  lemma ReadyMeansIndexedExactly(preparer: Preparer, regime: Regime, u: Upload)
    requires u.Valid() && u.PreparedBy(preparer)
    ensures Always(preparer, regime, s => ReadyIsIndexed(preparer, s)) <==> !regime.overlap && !regime.lostCommit
  {
    hide IsRun, FullyIndexed, Reaches, Prepared, Emptied;
    if !regime.overlap && !regime.lostCommit {
      forall run: seq<State>, i: nat | IsRun(preparer, regime, run) && i < |run| ensures ReadyIsIndexed(preparer, run[i]) {
        forall d | IsReady(run[i].rows, d) ensures FullyIndexed(preparer, run[i], d) {
          ReadyMeansIndexed(preparer, regime, run, i, d);
        }
      }
    } else {
      var run, s;
      if regime.overlap {
        run, s := OverlapEmpties(preparer, regime, u);
      } else {
        run, s := LostCommitEmpties(preparer, regime, u);
      }
      EmptiedIsNotIndexed(preparer, u, s);
      Refuted(preparer, regime, s => ReadyIsIndexed(preparer, s), run, s);
    }
  }

  lemma EmptiedIsNotIndexed(preparer: Preparer, u: Upload, s: State)
    requires Emptied(u, s)
    ensures !ReadyIsIndexed(preparer, s)
  {
    hide Expected;
    var expected := Expected(preparer, s.rows.docs[u.d]);
    if expected != map[] {
      var c :| c in expected;
      assert c in ExpectedPoints(preparer, s.rows.docs[u.d]);
    }
    assert StoredPoints(s, u.d) == map[];
  }

  /** Working workers always own their documents exactly when an accepted job is reported as
      accepted, however deliveries overlap. */
  lemma WorkersOwnExactly(preparer: Preparer, regime: Regime, u: Upload)
    requires u.Valid() && u.PreparedBy(preparer)
    ensures Always(preparer, regime, WorkersOwn) <==> !regime.lostEnqueue
  {
    hide IsRun, Reaches, Owns, Prepared;
    if !regime.lostEnqueue {
      forall run: seq<State>, i: nat | IsRun(preparer, regime, run) && i < |run| ensures WorkersOwn(run[i]) {
        forall p, d | LifecycleGuarantees.Working(run[i], p, d) ensures Owns(run[i], p, d) {
          SoleOwner(preparer, regime, run, i, p, d);
        }
      }
    } else {
      var run := LostEnqueueContests(preparer, regime, u);
      var s := Contested(u, Undispatched(u).0, map[]);
      ContestedIsNotOwned(u, s);
      Refuted(preparer, regime, WorkersOwn, run, s);
    }
  }

  lemma ContestedIsNotOwned(u: Upload, s: State)
    requires u.Valid() && s == Contested(u, Undispatched(u).0, map[])
    ensures !WorkersOwn(s) && !StartersOwn(s)
  {
    hide Prepared;
    assert Owner.Active(s.procs, 1, u.d);
    assert LifecycleGuarantees.Working(s, 1, u.d);
    assert !InFlight(s.rows, u.d);
  }

  /** And they keep owning them in their failure path exactly when the READY commit is reported too. */
  lemma StartersOwnExactly(preparer: Preparer, regime: Regime, u: Upload)
    requires u.Valid() && u.PreparedBy(preparer)
    ensures Always(preparer, regime, StartersOwn) <==> !regime.lostEnqueue && !regime.lostCommit
  {
    hide IsRun, Reaches, Owns, Prepared;
    if !regime.lostEnqueue && !regime.lostCommit {
      forall run: seq<State>, i: nat | IsRun(preparer, regime, run) && i < |run| ensures StartersOwn(run[i]) {
        forall p, d | Owner.Active(run[i].procs, p, d) ensures Owns(run[i], p, d) {
          SoleOwner(preparer, regime, run, i, p, d);
        }
      }
    } else if regime.lostEnqueue {
      var run := LostEnqueueContests(preparer, regime, u);
      var s := Contested(u, Undispatched(u).0, map[]);
      ContestedIsNotOwned(u, s);
      Refuted(preparer, regime, StartersOwn, run, s);
    } else {
      var failing: map<ProcessId, Process> := map[1 := Worker(u.j, Failing(u.d, Unexpected))];
      var run := LostCommitFails(preparer, regime, u, failing);
      var s := Done(u, 1, u.Points(), Finished(Accepted), failing);
      ReadyIsNotOwned(u, failing, s);
      Refuted(preparer, regime, StartersOwn, run, s);
    }
  }

  lemma ReadyIsNotOwned(u: Upload, failing: map<ProcessId, Process>, s: State)
    requires u.Valid() && failing == map[1 := Worker(u.j, Failing(u.d, Unexpected))]
    requires s == Done(u, 1, u.Points(), Finished(Accepted), failing)
    ensures !StartersOwn(s)
  {
    hide Prepared, Upserted;
    assert Owner.Active(s.procs, 1, u.d) && !InFlight(s.rows, u.d);
  }

  /** No two workers ever have the same document exactly when deliveries do not overlap. */
  lemma WorkersDoNotMeetExactly(preparer: Preparer, regime: Regime, u: Upload)
    requires u.Valid() && u.PreparedBy(preparer)
    ensures Always(preparer, regime, OneWorkerEach) <==> !regime.overlap
  {
    hide IsRun, Reaches, OneWorkerEach, Prepared;
    if !regime.overlap {
      forall run: seq<State>, i: nat | IsRun(preparer, regime, run) && i < |run| ensures OneWorkerEach(run[i]) {
        WorkersDoNotMeet(preparer, regime, run, i);
      }
    } else {
      var others: map<ProcessId, Process> := map[1 := Worker(u.j, Cleaning(u.d))];
      var run := OverlapMeets(preparer, regime, u, others);
      var s := u.Attempt(2, 2, Upserting(u.Doc(Processing, ""), u.chunks), map[], Finished(Accepted), others);
      TwoAreThere(u, others, s);
      Refuted(preparer, regime, OneWorkerEach, run, s);
    }
  }

  lemma TwoAreThere(u: Upload, others: map<ProcessId, Process>, s: State)
    requires u.Valid() && others == map[1 := Worker(u.j, Cleaning(u.d))]
    requires s == u.Attempt(2, 2, Upserting(u.Doc(Processing, ""), u.chunks), map[], Finished(Accepted), others)
    ensures !OneWorkerEach(s)
  {
    hide Prepared;
    assert CarriedBy(s.procs, 1, u.d) && CarriedBy(s.procs, 2, u.d);
  }

  /** No point is ever orphaned exactly when an accepted job is reported as accepted. */
  lemma NoOrphansExactly(preparer: Preparer, regime: Regime, u: Upload)
    requires u.Valid() && u.PreparedBy(preparer)
    ensures Always(preparer, regime, NoOrphans) <==> !regime.lostEnqueue
  {
    hide IsRun, Reaches, NoOrphans, Prepared;
    if !regime.lostEnqueue {
      forall run: seq<State>, i: nat | IsRun(preparer, regime, run) && i < |run| ensures NoOrphans(run[i]) {
        NoOrphanPoints(preparer, regime, run, i);
      }
    } else {
      var run := LostEnqueueContests(preparer, regime, u);
      run := LostEnqueueOrphans(preparer, regime, u, run);
      var s := Removed(u, u.Points(), Committing(u.Doc(Processing, ""), u.chunks));
      OrphansRemain(u, s);
      Refuted(preparer, regime, NoOrphans, run, s);
    }
  }

  lemma OrphansRemain(u: Upload, s: State)
    requires u.Valid() && s == Removed(u, u.Points(), Committing(u.Doc(Processing, ""), u.chunks))
    ensures !NoOrphans(s) && !PointsGone(s, u.d)
  {
    hide Prepared, Upserted;
    PointsOfUpload(u);
  }

  /** Once the row of a document is gone, all its vector points are and stay gone. */
  ghost predicate DeletionsAreFinal(preparer: Preparer, regime: Regime) {
    forall run: seq<State>, h: nat, i: nat, k: nat, d ::
      IsRun(preparer, regime, run) && h <= i <= k < |run| && d in run[h].rows.docs && d !in run[i].rows.docs ==> PointsGone(run[k], d)
  }

  /** Deletion is final exactly when an accepted job is reported as accepted; for rows, chunks, jobs
      and files it always is. */
  lemma DeletionIsFinalExactly(preparer: Preparer, regime: Regime, u: Upload)
    requires u.Valid() && u.PreparedBy(preparer)
    ensures DeletionsAreFinal(preparer, regime) <==> !regime.lostEnqueue
  {
    hide IsRun, Reaches, PointsGone, Prepared;
    if !regime.lostEnqueue {
      forall run: seq<State>, h: nat, i: nat, k: nat, d
        | IsRun(preparer, regime, run) && h <= i <= k < |run| && d in run[h].rows.docs && d !in run[i].rows.docs
        ensures PointsGone(run[k], d)
      {
        DeletionIsFinal(preparer, regime, run, d, h, i, k);
      }
    } else {
      var before := LostEnqueueContests(preparer, regime, u);
      var run := LostEnqueueOrphans(preparer, regime, u, before);
      var s := Removed(u, u.Points(), Committing(u.Doc(Processing, ""), u.chunks));
      OrphansRemain(u, s);
      Ends(preparer, regime, before, Contested(u, Undispatched(u).0, map[]));
      Ends(preparer, regime, run, s);
      var h, i := |before| - 1, |run| - 1;
      assert run[h] == before[h];
      assert u.d in run[h].rows.docs && u.d !in run[i].rows.docs;
    }
  }

  lemma Ends(preparer: Preparer, regime: Regime, run: seq<State>, s: State)
    requires Reaches(preparer, regime, run, s)
    ensures IsRun(preparer, regime, run) && |run| > 0 && run[|run| - 1] == s
  {
    hide Next, Init;
  }

  /** Every document that is not on its way out always has its file exactly when a committed
      insert is reported as committed; no other part of the regime matters. */
  lemma RowsHaveFilesExactly(preparer: Preparer, regime: Regime)
    ensures Always(preparer, regime, RowsFiled) <==> !regime.lostInsert
  {
    hide IsRun, Reaches;
    if !regime.lostInsert {
      forall run: seq<State>, i: nat | IsRun(preparer, regime, run) && i < |run| ensures RowsFiled(run[i]) {
        RowsHaveFiles(preparer, regime, run, i);
      }
    } else {
      var u := Upload(0, 1, "a", PlainText, [0], []);
      assert !IsBlank(u.filename) by { assert !IsSpace(u.filename[0]); }
      var run, s := LostInsertUnfiles(preparer, regime, u);
      Refuted(preparer, regime, RowsFiled, run, s);
    }
  }

  /** A submit that ends with an error other than a duplicate or a queue error always leaves nothing
      exactly when neither a committed insert nor an accepted job goes unreported. A rejected
      duplicate leaves nothing in any regime. */
  lemma RejectionLeavesNothingExactly(preparer: Preparer, regime: Regime, u: Upload)
    requires u.Valid() && u.PreparedBy(preparer)
    ensures Always(preparer, regime, ErrorsLeaveNothing) <==> !regime.lostInsert && !regime.lostEnqueue
  {
    hide IsRun, Reaches, Prepared, Init, Next;
    if !regime.lostInsert && !regime.lostEnqueue {
      forall run: seq<State>, i: nat | IsRun(preparer, regime, run) && i < |run| ensures ErrorsLeaveNothing(run[i]) {
        forall p | p in run[i].procs && run[i].procs[p].Submit? && run[i].procs[p].submitPc == Finished(OtherError)
          ensures run[i].procs[p].document.storageKey !in run[i].files && run[i].procs[p].document.id !in run[i].rows.docs
        {
          RejectionLeavesNothing(preparer, regime, run, i, p);
        }
      }
    } else {
      var run, s;
      if regime.lostInsert {
        run, s := LostInsertUnfiles(preparer, regime, u);
      } else {
        run := LostEnqueueLeavesReady(preparer, regime, u);
        s := Done(u, 1, u.Points(), Finished(OtherError), map[]);
      }
      assert s.procs[0] == u.Uploading(Finished(OtherError)) && u.d in s.rows.docs;
      Refuted(preparer, regime, ErrorsLeaveNothing, run, s);
    }
  }
}
