/** Restore chains over whole runs: shape, depth, and what a deletion does to the chains of others. */
module LineageTheorems {
  import opened Base
  import opened Manifests
  import opened Catalogs
  import opened Lineage
  import opened Streams
  import opened Machine
  import opened Invariant
  import opened Safety
  import opened SafetyPurge
  import opened SafetyEnd
  import opened SafetyWorker
  import opened SafetyStart
  import opened Theorems

  lemma {:induction false} ChainInDataset(c: Catalog, s: Id, a: Id)
    requires SnapshotRowsOk(c.datasets, c.snapshots) && Acyclic(ParentsOf(c.snapshots))
    requires s in c.snapshots && a in Chain(ParentsOf(c.snapshots), s)
    ensures a in c.snapshots && c.snapshots[a].dataset == c.snapshots[s].dataset
    decreases Measure(ParentsOf(c.snapshots), s)
  {
    if a != s {
      ChainInDataset(c, c.snapshots[s].parent.value, a);
    }
  }

  /** In every reachable state the restore-chain query ends, and its answer runs from a parentless snapshot to
      the target inside one dataset; for a committed target every member is committed. */
  lemma ReachableChains(l: Lib, w: World, s: Id)
    requires Reachable(l, w) && s in w.cat.snapshots
    ensures var p := ParentsOf(w.cat.snapshots);
      && Acyclic(p) && Closed(p) && IsChain(p, s, Chain(p, s))
      && (forall a :: a in Chain(p, s) ==>
            && a in w.cat.snapshots && w.cat.snapshots[a].dataset == w.cat.snapshots[s].dataset
            && (w.cat.snapshots[s].status == Committed ==> w.cat.snapshots[a].status == Committed))
  {
    ReachableInv(l, w);
    hide CommittedOk, LiveOk, WorkerOk, ModeOk, IssuedOk, Reachable;
    hide SessionRowsOk, ChunkRowsOk, UniqueOk, OperationRowsOk, StatusOk, RefsOk, Acyclic;
    var p := ParentsOf(w.cat.snapshots);
    ChainShape(p, s);
    forall a | a in Chain(p, s)
      ensures a in w.cat.snapshots && w.cat.snapshots[a].dataset == w.cat.snapshots[s].dataset
      ensures w.cat.snapshots[s].status == Committed ==> w.cat.snapshots[a].status == Committed
    {
      ChainInDataset(w.cat, s, a);
      if w.cat.snapshots[s].status == Committed {
        AncestorCommitted(w.cat.snapshots, s, a);
      }
    }
  }

  // ---- the depth limit ----

  ghost predicate DepthOk(snapshots: map<Id, Snapshot>, limit: int) {
    Acyclic(ParentsOf(snapshots)) && forall s :: s in snapshots ==> |Chain(ParentsOf(snapshots), s)| <= limit
  }

  lemma SameParentsDepth(a: map<Id, Snapshot>, b: map<Id, Snapshot>, limit: int)
    requires DepthOk(a, limit) && ParentsOf(a) == ParentsOf(b)
    ensures DepthOk(b, limit)
  {
    assert forall s :: s in b ==> s in ParentsOf(b);
  }

  lemma PurgeDepth(c: Catalog, d: set<Id>, s: set<Id>, e: set<Id>, limit: int)
    requires LinksOk(c.snapshots) && Removable(c, d, s, e) && DepthOk(c.snapshots, limit)
    ensures DepthOk(Purge(c, d, s, e).snapshots, limit)
  {
    hide Acyclic, Closed, ParentsCommitted, Removable;
    PurgeLinks(c, d, s, e);
  }

  lemma ClearedDepth(w: World, t: Start, limit: int)
    requires LinksOk(w.cat.snapshots) && CanStart(w, t) && DepthOk(w.cat.snapshots, limit) && 0 < t.limit <= limit
    ensures var c := Cleared(w, t).cat.snapshots;
      && LinksOk(c) && DepthOk(c, limit)
      && (t.base.Some? ==> t.base.value in ParentsOf(c) && |Chain(ParentsOf(c), t.base.value)| + 1 <= limit)
  {
    hide Closed, ParentsCommitted, Acyclic;
    var c := WithDataset(w, t.d, t.req.ds).cat;
    if t.previous.Some? {
      SnapshotRemovable(c, t.previous.value, {});
      PurgeLinks(c, {}, {t.previous.value}, {});
      PurgeDepth(c, {}, {t.previous.value}, {}, limit);
    }
  }

  lemma StartDepth(l: Lib, w: World, t: Start, limit: int)
    requires CatalogOk(w.cat) && IssuedOk(w) && CanStart(w, t) && DepthOk(w.cat.snapshots, limit)
    requires 0 < t.limit <= limit
    ensures DepthOk(Started(w, t).cat.snapshots, limit)
  {
    hide Insertable, DepthOk, LinksOk, CanStart, IssuedOk, Purge, Acyclic;
    hide SnapshotRowsOk, SessionRowsOk, ChunkRowsOk, UniqueOk, OperationRowsOk, StatusOk, RefsOk;
    ClearedInsertable(w, t);
    ClearedDepth(w, t, limit);
    InsertDepth(Cleared(w, t), t, limit);
    assert Started(w, t) == WithUpload(Cleared(w, t), t);
  }

  lemma InsertDepth(w: World, t: Start, limit: int)
    requires Insertable(w, t) && LinksOk(w.cat.snapshots) && DepthOk(w.cat.snapshots, limit) && limit > 0
    requires t.base.Some? ==> |Chain(ParentsOf(w.cat.snapshots), t.base.value)| + 1 <= limit
    ensures DepthOk(WithRows(w.cat, t).snapshots, limit)
  {
    hide Closed, ParentsCommitted, Acyclic;
    InsertLinks(w, t);
    var q := WithRows(w.cat, t).snapshots;
    forall s | s in q ensures |Chain(ParentsOf(q), s)| <= limit {
      if s != t.snap {
        assert s in ParentsOf(w.cat.snapshots);
      }
    }
  }

  lemma FinishDepth(l: Lib, w: World, limit: int)
    requires CatalogOk(w.cat) && WorkerOk(w) && CanFinish(w) && DepthOk(w.cat.snapshots, limit)
    ensures DepthOk(JobFinished(w).cat.snapshots, limit)
  {
    hide WorkerOk, FinishRows, Purge, Removable, DepthOk;
    hide SnapshotRowsOk, SessionRowsOk, ChunkRowsOk, UniqueOk, OperationRowsOk, StatusOk, RefsOk, LinksOk;
    var gone := FinishRemoves(w);
    if gone.Some? {
      PurgeDepth(w.cat, gone.value.0, gone.value.1, gone.value.2, limit);
    }
  }

  lemma SameSnapshots(c: Catalog, e: Id, o: Id, a: SessionStatus, b: OperationStatus)
    ensures SetSessionStatus(c, e, a).snapshots == c.snapshots && SetOperationStatus(c, o, b).snapshots == c.snapshots
  {
  }

  lemma StatusParents(c: Catalog, s: Id, status: SnapshotStatus)
    ensures ParentsOf(SetSnapshotStatus(c, s, status).snapshots) == ParentsOf(c.snapshots)
  {
  }

  lemma FailParents(c: Catalog, e: Id, u: Upload)
    ensures ParentsOf(FailRows(c, e, u).snapshots) == ParentsOf(c.snapshots)
  {
    hide SetSnapshotStatus, SetSessionStatus, SetOperationStatus, ParentsOf;
    StatusParents(c, u.snap, Failed);
    var c1 := SetSnapshotStatus(c, u.snap, Failed);
    SameSnapshots(c1, e, u.op, SessionFailed, OpFailed);
    SameSnapshots(SetSessionStatus(c1, e, SessionFailed), e, u.op, SessionFailed, OpFailed);
  }

  lemma CommitParents(l: Lib, c: Catalog, e: Id, u: Upload)
    ensures ParentsOf(CommitRows(l, c, e, u).snapshots) == ParentsOf(c.snapshots)
  {
    hide SetOperationStatus;
    assert CommitRows(l, c, e, u).snapshots ==
      if u.snap in c.snapshots then c.snapshots[u.snap := CommittedRow(l, c.snapshots[u.snap], u)] else c.snapshots
      by { CommitSnapshotsOnly(l, c, e, u); }
  }

  lemma CommitSnapshotsOnly(l: Lib, c: Catalog, e: Id, u: Upload)
    ensures CommitRows(l, c, e, u).snapshots ==
      if u.snap in c.snapshots then c.snapshots[u.snap := CommittedRow(l, c.snapshots[u.snap], u)] else c.snapshots
  {
  }

  lemma InvalidateParents(c: Catalog, gone: set<Id>)
    ensures ParentsOf(Invalidate(c, gone).snapshots) == ParentsOf(c.snapshots)
  {
  }

  lemma ReconcileParents(w: World)
    requires ReconcilingAt(w, AtSnapshot)
    ensures ParentsOf(SnapshotReconciled(w).cat.snapshots) == ParentsOf(w.cat.snapshots)
  {
  }

  lemma HandlerSnapshots(l: Lib, w: World, e: Id)
    requires e in w.live
    ensures CanRecordChunk(l, w, e) ==> ChunkRecorded(l, w, e).cat.snapshots == w.cat.snapshots
    ensures ManifestKeySet(w, e).cat.snapshots == w.cat.snapshots
    ensures forall status, at :: SessionMoved(w, e, status, at).cat.snapshots == w.cat.snapshots
  {
    hide ChunkRowOf;
  }

  lemma UploadStepParents(l: Lib, w: World, step: Step)
    requires Enabled(l, w, step) && (MovesUpload(step) || step.Commit?)
    ensures ParentsOf(Apply(l, w, step).cat.snapshots) == ParentsOf(w.cat.snapshots)
  {
    hide Enabled, Apply;
    if step.Commit? || step.Fail? {
      EndStepParents(l, w, step);
    } else {
      MoveStepParents(l, w, step);
    }
  }

  lemma EndStepParents(l: Lib, w: World, step: Step)
    requires Enabled(l, w, step) && (step.Commit? || step.Fail?)
    ensures ParentsOf(Apply(l, w, step).cat.snapshots) == ParentsOf(w.cat.snapshots)
  {
    hide FailRows, CommitRows, ParentsOf;
    CommitParents(l, w.cat, step.e, w.live[step.e]);
    FailParents(w.cat, step.e, w.live[step.e]);
  }

  lemma MoveStepParents(l: Lib, w: World, step: Step)
    requires Enabled(l, w, step) && MovesUpload(step) && !step.Fail?
    ensures Apply(l, w, step).cat.snapshots == w.cat.snapshots
  {
    hide ChunkRecorded, ManifestKeySet, SessionMoved, ManifestOf, RecordedRows, WellFormed, ApplyStartup, Started, CanStart;
    hide CommitRows, FailRows;
    HandlerSnapshots(l, w, step.e);
  }

  predicate MovesJob(step: Step) {
    step.BeginJob? || step.CountDescendants? || step.InvalidateRows? || step.FailJob?
  }

  lemma JobSnapshots(w: World)
    requires w.jobs != []
    ensures JobBegun(w).cat.snapshots == w.cat.snapshots
    ensures w.deletion.Some? ==> JobFailed(w).cat.snapshots == w.cat.snapshots
    ensures CanCount(w) ==> JobCounted(w).cat.snapshots == w.cat.snapshots
  {
    hide SetOperationStatus, Acyclic, CountCommittedDescendants;
    var o := w.jobs[0].op;
    SameSnapshots(w.cat, o, o, SessionFailed, Running);
    SameSnapshots(SetOperationStatus(w.cat, o, Running), o, o, SessionFailed, OpFailed);
    if w.deletion.Some? {
      SameSnapshots(w.cat, o, w.deletion.value.job.op, SessionFailed, OpFailed);
    }
  }

  lemma JobStepParents(l: Lib, w: World, step: Step)
    requires Enabled(l, w, step) && MovesJob(step)
    ensures ParentsOf(Apply(l, w, step).cat.snapshots) == ParentsOf(w.cat.snapshots)
  {
    hide CountCommittedDescendants, Acyclic, Targets, ParentsOf, Invalidate, JobBegun, JobFailed;
    hide ApplyUpload, ApplyStartup, JobCounted, UploadingInto;
    if step.InvalidateRows? {
      InvalidateParents(w.cat, Targets(w.cat, w.deletion.value.job));
    } else {
      JobSnapshots(w);
    }
  }

  lemma OtherStepParents(l: Lib, w: World, step: Step)
    requires Enabled(l, w, step) && !step.StartUpload? && !step.FinishJob?
    requires !MovesUpload(step) && !step.Commit? && !MovesJob(step)
    ensures ParentsOf(Apply(l, w, step).cat.snapshots) == ParentsOf(w.cat.snapshots)
  {
    hide Targets, ObjectKeys, StaleList, ListedJob, SnapshotReconciled, ParentsOf;
    if step.ReconcileSnapshot? {
      ReconcileParents(w);
    }
  }

  lemma StepDepth(l: Lib, w: World, step: Step, limit: int)
    requires Inv(l, w) && Enabled(l, w, step) && DepthOk(w.cat.snapshots, limit)
    requires step.StartUpload? ==> 0 < step.start.limit <= limit
    ensures DepthOk(Apply(l, w, step).cat.snapshots, limit)
  {
    hide CatalogOk, CommittedOk, LiveOk, WorkerOk, ModeOk, IssuedOk, DepthOk, CanStart;
    if step.StartUpload? {
      StartDepth(l, w, step.start, limit);
    } else if step.FinishJob? {
      FinishDepth(l, w, limit);
    } else {
      if MovesUpload(step) || step.Commit? {
        UploadStepParents(l, w, step);
      } else if MovesJob(step) {
        JobStepParents(l, w, step);
      } else {
        OtherStepParents(l, w, step);
      }
      SameParentsDepth(w.cat.snapshots, Apply(l, w, step).cat.snapshots, limit);
    }
  }

  /** If every upload was started with a positive limit of at most L, no restore chain is ever longer than L. */
  lemma {:induction false} RunDepth(l: Lib, w: World, steps: seq<Step>, limit: int)
    requires Inv(l, w) && IsRun(l, w, steps) && DepthOk(w.cat.snapshots, limit)
    requires forall i :: 0 <= i < |steps| && steps[i].StartUpload? ==> 0 < steps[i].start.limit <= limit
    ensures DepthOk(After(l, w, steps).cat.snapshots, limit)
    decreases |steps|
  {
    hide Inv, Enabled, Apply, DepthOk;
    if steps != [] {
      StepDepth(l, w, steps[0], limit);
      StepKeeps(l, w, steps[0]);
      RunDepth(l, Apply(l, w, steps[0]), steps[1..], limit);
    }
  }

  lemma ChainsNeverExceedLimit(l: Lib, steps: seq<Step>, limit: int)
    requires IsRun(l, INITIAL, steps)
    requires forall i :: 0 <= i < |steps| && steps[i].StartUpload? ==> 0 < steps[i].start.limit <= limit
    ensures DepthOk(After(l, INITIAL, steps).cat.snapshots, limit)
  {
    hide Inv, IsRun, After;
    InitialInv(l);
    assert DepthOk(INITIAL.cat.snapshots, limit) by {
      assert IsRank(ParentsOf(EMPTY.snapshots), map[]);
    }
    RunDepth(l, INITIAL, steps, limit);
  }

  // ---- deleting one snapshot ----

  /** In a reachable state the worker's count is the number of committed snapshots that need x, so the worker
      refuses exactly when there is one. */
  lemma CountIsExact(l: Lib, w: World, x: Id)
    requires Reachable(l, w) && x in w.cat.snapshots
    ensures Acyclic(ParentsOf(w.cat.snapshots))
    ensures CountCommittedDescendants(w.cat.snapshots, x) == |Dependents(w.cat.snapshots, x)|
  {
    ReachableInv(l, w);
    hide CommittedOk, LiveOk, WorkerOk, ModeOk, IssuedOk, Reachable, Acyclic;
    hide SnapshotRowsOk, SessionRowsOk, ChunkRowsOk, UniqueOk, OperationRowsOk, StatusOk, RefsOk;
    CountIsDependents(w.cat.snapshots, x);
  }

  /** The restore chain of t does not involve x, and neither marking nor removing x changes it. */
  ghost predicate ChainSurvives(c: Catalog, x: Id, t: Id)
    requires Acyclic(ParentsOf(c.snapshots))
  {
    var p := ParentsOf(c.snapshots);
    var marked := Invalidate(c, {x});
    && x !in Chain(p, t) && ParentsOf(marked.snapshots) == p
    && (forall a :: a in Chain(p, t) ==> a in marked.snapshots && marked.snapshots[a].status == Committed)
    && (RemoveSnapshot(marked, x).Some? ==>
          var after := RemoveSnapshot(marked, x).value.snapshots;
          && Acyclic(ParentsOf(after)) && Chain(ParentsOf(after), t) == Chain(p, t)
          && (forall a :: a in Chain(p, t) ==> a in after && after[a].status == Committed))
  }

  /** Deleting x, once the count allowed it, leaves the restore chain of every other committed snapshot
      unchanged and fully committed, both while x is marked and after its rows are gone. */
  lemma OthersKeepChains(l: Lib, w: World, x: Id, t: Id)
    requires Reachable(l, w) && x in w.cat.snapshots && t in w.cat.snapshots && t != x
    requires w.cat.snapshots[t].status == Committed
    requires Acyclic(ParentsOf(w.cat.snapshots)) && CountCommittedDescendants(w.cat.snapshots, x) == 0
    ensures ChainSurvives(w.cat, x, t)
  {
    ReachableInv(l, w);
    CountIsExact(l, w, x);
    hide CommittedOk, LiveOk, WorkerOk, ModeOk, IssuedOk, Reachable, Acyclic, ChainSurvives;
    hide SnapshotRowsOk, SessionRowsOk, ChunkRowsOk, UniqueOk, OperationRowsOk, StatusOk, RefsOk, LinksOk;
    hide CountCommittedDescendants, Dependents;
    IndependentSurvives(w.cat, x, t);
  }

  lemma IndependentSurvives(c: Catalog, x: Id, t: Id)
    requires LinksOk(c.snapshots) && t in c.snapshots && t != x && c.snapshots[t].status == Committed
    requires |Dependents(c.snapshots, x)| == 0
    ensures ChainSurvives(c, x, t)
  {
    hide Acyclic, Closed, Purge, Blocked;
    var p, marked := ParentsOf(c.snapshots), Invalidate(c, {x});
    assert ParentsOf(marked.snapshots) == p;
    assert t !in Dependents(c.snapshots, x);
    assert x !in Chain(p, t) by { assert x in {x}; }
    forall a | a in Chain(p, t) ensures a in marked.snapshots && marked.snapshots[a].status == Committed {
      AncestorCommitted(c.snapshots, t, a);
    }
    RemoveSnapshotIsPurge(marked, x);
    if !Blocked(marked, {x}, SessionsOf(marked, x)) {
      RemovedChain(marked, x, t);
    }
  }

  lemma RemovedChain(c: Catalog, x: Id, t: Id)
    requires Acyclic(ParentsOf(c.snapshots)) && Closed(ParentsOf(c.snapshots))
    requires !Blocked(c, {x}, SessionsOf(c, x)) && t in c.snapshots && t != x
    requires x !in Chain(ParentsOf(c.snapshots), t)
    ensures var after := Purge(c, {}, {x}, SessionsOf(c, x)).snapshots;
      && Acyclic(ParentsOf(after)) && Chain(ParentsOf(after), t) == Chain(ParentsOf(c.snapshots), t)
      && (forall a :: a in Chain(ParentsOf(c.snapshots), t) ==> a in after && after[a] == c.snapshots[a])
  {
    hide Acyclic;
    var p := ParentsOf(c.snapshots);
    var after := Purge(c, {}, {x}, SessionsOf(c, x)).snapshots;
    assert ParentsOf(after) == p - {x};
    RemoveRows(p, {x});
    forall a | a in Chain(p, t) ensures a in c.snapshots { ChainRank(p, t, a); }
  }
}
