/** Why the machine's guards are there: what the statements do when steps the guards exclude are let in. */
module Hazards {
  import opened Base
  import opened Manifests
  import opened Catalogs
  import opened Lineage
  import opened Streams
  import opened Machine
  import opened LineageTheorems
  import opened Deletions
  import opened Repositories

  /** CommitUpload does not look at the base again: if its base is marked for deletion while the upload runs, the
      upload still commits, and a committed snapshot then depends on one that is being deleted. */
  lemma CommitIgnoresBase(l: Lib, c: Catalog, e: Id, u: Upload, base: Id)
    requires u.snap in c.snapshots && base in c.snapshots && base != u.snap && c.snapshots[u.snap].parent == Some(base)
    ensures !ParentsCommitted(CommitRows(l, Invalidate(c, {base}), e, u).snapshots)
  {
    hide CommitRows;
    var marked := Invalidate(c, {base});
    CommitSnapshotsOnly(l, marked, e, u);
    var after := CommitRows(l, marked, e, u).snapshots;
    assert after[u.snap].status == Committed && after[u.snap].parent == Some(base) && after[base].status == Deleting;
  }

  /** FailSnapshot does not look at the status: a reconciler that listed a session while its upload was still
      running, and gets to its statements after the commit, turns the committed snapshot into a failed one. */
  lemma LateReconcileUncommits(l: Lib, c: Catalog, e: Id, u: Upload)
    requires e in c.sessions && u.snap in c.snapshots && c.sessions[e].snapshot == Some(u.snap)
    ensures u.snap in CommitRows(l, c, e, u).snapshots && CommitRows(l, c, e, u).snapshots[u.snap].status == Committed
    ensures var late := ReconciledOne(CommitRows(l, c, e, u), e);
      && u.snap in late.snapshots && late.snapshots[u.snap].status == Failed
      && e in late.sessions && late.sessions[e].status == SessionFailed
  {
    hide SetOperationStatus, FailOperationsOf;
    var key := ManifestKey(u.req.ds, u.req.name);
    var c1 := CompleteSession(CommitSnapshot(c, u.snap, key, FactsOf(l, u)), e, key);
    MarkingRows(c1, u.op, Succeeded);
    var c2 := CommitRows(l, c, e, u);
    assert c2.sessions[e].snapshot == Some(u.snap) && c2.snapshots == c1.snapshots;
    OperationsOnly(SetSessionStatus(SnapshotFailed(c2, e), e, SessionFailed), e);
  }

  /** A commit that takes effect although its caller sees an error is followed by FailUpload, which does not look at
      the status either: the snapshot is failed again, and one already committed onto it has lost its parent. */
  lemma UnseenCommitUndone(l: Lib, c: Catalog, e: Id, u: Upload, child: Id)
    requires u.snap in c.snapshots && child in c.snapshots && child != u.snap
    requires c.snapshots[child].parent == Some(u.snap) && c.snapshots[child].status == Committed
    ensures u.snap in CommitRows(l, c, e, u).snapshots && CommitRows(l, c, e, u).snapshots[u.snap].status == Committed
    ensures var after := FailRows(CommitRows(l, c, e, u), e, u);
      && u.snap in after.snapshots && after.snapshots[u.snap].status == Failed && !ParentsCommitted(after.snapshots)
  {
    hide CommitRows, SetSessionStatus, SetOperationStatus;
    CommitSnapshotsOnly(l, c, e, u);
    var c1 := SetSnapshotStatus(CommitRows(l, c, e, u), u.snap, Failed);
    SameSnapshots(c1, e, u.op, SessionFailed, OpFailed);
    SameSnapshots(SetSessionStatus(c1, e, SessionFailed), e, u.op, SessionFailed, OpFailed);
    var after := FailRows(CommitRows(l, c, e, u), e, u).snapshots;
    assert after[child].status == Committed && after[child].parent == Some(u.snap) && after[u.snap].status == Failed;
  }

  lemma OperationsOnly(c: Catalog, e: Id)
    ensures FailOperationsOf(c, e).snapshots == c.snapshots && FailOperationsOf(c, e).sessions == c.sessions
  {
  }
}
