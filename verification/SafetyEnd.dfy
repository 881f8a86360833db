/** Steps that end an upload, or record its end after a restart, keep the invariant. */
module SafetyEnd {
  import opened Base
  import opened Manifests
  import opened Catalogs
  import opened Lineage
  import opened Streams
  import opened Machine
  import opened Invariant
  import opened Safety

  // ---- failing rows ----

  lemma SnapshotFailsCatalog(c: Catalog, s: Id, e: Id)
    requires CatalogOk(c) && s in c.snapshots
    requires e in c.sessions && c.sessions[e].snapshot == Some(s) && Active(c.sessions[e].status)
    ensures CatalogOk(SetSnapshotStatus(c, s, Failed))
  {
    hide SnapshotRowsOk, SessionRowsOk, ChunkRowsOk, UniqueOk, OperationRowsOk, StatusOk, RefsOk, LinksOk;
    SameNamesRows(c, SetSnapshotStatus(c, s, Failed).snapshots);
    SameNamesReferrers(c, SetSnapshotStatus(c, s, Failed).snapshots);
    SnapshotFailsRefs(c, s, e);
    SnapshotFailsLinks(c, s, e);
  }

  /** Rows are referred to by identifier, dataset and name; a change of status disturbs none of that. */
  ghost predicate SameNames(a: map<Id, Snapshot>, b: map<Id, Snapshot>) {
    a.Keys == b.Keys && forall s :: s in a ==>
      a[s].dataset == b[s].dataset && a[s].name == b[s].name
      && a[s].parent == b[s].parent && a[s].manifestKey == b[s].manifestKey
  }

  lemma SameNamesRows(c: Catalog, snapshots: map<Id, Snapshot>)
    requires SameNames(c.snapshots, snapshots)
    requires SnapshotRowsOk(c.datasets, c.snapshots) && UniqueOk(c.datasets, c.snapshots, c.sessions)
    ensures SnapshotRowsOk(c.datasets, snapshots) && UniqueOk(c.datasets, snapshots, c.sessions)
    ensures ParentsOf(snapshots) == ParentsOf(c.snapshots)
  {
  }

  lemma SameNamesReferrers(c: Catalog, snapshots: map<Id, Snapshot>)
    requires SameNames(c.snapshots, snapshots)
    requires SessionRowsOk(c.datasets, c.snapshots, c.sessions)
    requires ChunkRowsOk(c.datasets, c.snapshots, c.sessions, c.chunks)
    requires OperationRowsOk(c.datasets.Keys, c.snapshots, c.sessions.Keys, c.operations)
    ensures SessionRowsOk(c.datasets, snapshots, c.sessions)
    ensures ChunkRowsOk(c.datasets, snapshots, c.sessions, c.chunks)
    ensures OperationRowsOk(c.datasets.Keys, snapshots, c.sessions.Keys, c.operations)
  {
  }

  lemma SnapshotFailsRefs(c: Catalog, s: Id, e: Id)
    requires RefsOk(c.snapshots, c.sessions) && StatusOk(c.snapshots, c.sessions) && s in c.snapshots
    requires UniqueOk(c.datasets, c.snapshots, c.sessions)
    requires e in c.sessions && c.sessions[e].snapshot == Some(s) && Active(c.sessions[e].status)
    ensures RefsOk(SetSnapshotStatus(c, s, Failed).snapshots, c.sessions)
    ensures StatusOk(SetSnapshotStatus(c, s, Failed).snapshots, c.sessions)
  {
    var c' := SetSnapshotStatus(c, s, Failed);
    assert !Referenceable(c.snapshots, c.sessions, s);
    forall p | Referenceable(c.snapshots, c.sessions, p) ensures Referenceable(c'.snapshots, c.sessions, p) {
    }
  }

  lemma SnapshotFailsLinks(c: Catalog, s: Id, e: Id)
    requires LinksOk(c.snapshots) && RefsOk(c.snapshots, c.sessions) && s in c.snapshots
    requires e in c.sessions && c.sessions[e].snapshot == Some(s) && Active(c.sessions[e].status)
    ensures LinksOk(SetSnapshotStatus(c, s, Failed).snapshots)
  {
    hide Acyclic, Closed;
    var c' := SetSnapshotStatus(c, s, Failed);
    assert ParentsOf(c'.snapshots) == ParentsOf(c.snapshots);
    assert !Referenceable(c.snapshots, c.sessions, s);
  }

  lemma SessionFailsCatalog(c: Catalog, e: Id)
    requires CatalogOk(c) && e in c.sessions && Active(c.sessions[e].status)
    requires c.sessions[e].snapshot.Some? ==>
      c.sessions[e].snapshot.value in c.snapshots && c.snapshots[c.sessions[e].snapshot.value].status == Failed
    ensures CatalogOk(SetSessionStatus(c, e, SessionFailed))
  {
    hide SnapshotRowsOk, SessionRowsOk, ChunkRowsOk, UniqueOk, OperationRowsOk, StatusOk, RefsOk, LinksOk;
    var c' := SetSessionStatus(c, e, SessionFailed);
    SessionFailsRows(c, e);
    SessionFailsRefs(c, e);
    assert c'.sessions.Keys == c.sessions.Keys;
  }

  lemma SessionFailsRows(c: Catalog, e: Id)
    requires SessionRowsOk(c.datasets, c.snapshots, c.sessions) && UniqueOk(c.datasets, c.snapshots, c.sessions)
    requires ChunkRowsOk(c.datasets, c.snapshots, c.sessions, c.chunks) && e in c.sessions
    ensures var sessions := SetSessionStatus(c, e, SessionFailed).sessions;
      && SessionRowsOk(c.datasets, c.snapshots, sessions) && UniqueOk(c.datasets, c.snapshots, sessions)
      && ChunkRowsOk(c.datasets, c.snapshots, sessions, c.chunks)
  {
  }

  lemma SessionFailsRefs(c: Catalog, e: Id)
    requires RefsOk(c.snapshots, c.sessions) && StatusOk(c.snapshots, c.sessions) && e in c.sessions
    requires Active(c.sessions[e].status)
    requires c.sessions[e].snapshot.Some? ==>
      c.sessions[e].snapshot.value in c.snapshots && c.snapshots[c.sessions[e].snapshot.value].status == Failed
    ensures RefsOk(c.snapshots, SetSessionStatus(c, e, SessionFailed).sessions)
    ensures StatusOk(c.snapshots, SetSessionStatus(c, e, SessionFailed).sessions)
  {
    var sessions := SetSessionStatus(c, e, SessionFailed).sessions;
    forall p | Referenceable(c.snapshots, c.sessions, p) ensures Referenceable(c.snapshots, sessions, p) {
    }
  }

  lemma OperationCatalog(c: Catalog, o: Id, status: OperationStatus)
    requires CatalogOk(c)
    ensures CatalogOk(SetOperationStatus(c, o, status)) && CatalogOk(FailOperationsOf(c, o))
  {
    hide SnapshotRowsOk, SessionRowsOk, ChunkRowsOk, UniqueOk, StatusOk, RefsOk, LinksOk;
  }

  lemma FailCatalog(l: Lib, w: World, e: Id)
    requires CatalogOk(w.cat) && LiveOk(l, w) && e in w.live
    ensures CatalogOk(UploadFailed(w, e).cat)
  {
    hide CatalogOk, HoldsManifest, RowsWritten, Holds, AtOk;
    var u := w.live[e];
    assert RowMatches(w.cat, e, u);
    SnapshotFailsCatalog(w.cat, u.snap, e);
    var c1 := SetSnapshotStatus(w.cat, u.snap, Failed);
    SessionFailsCatalog(c1, e);
    OperationCatalog(SetSessionStatus(c1, e, SessionFailed), u.op, OpFailed);
  }

  lemma OthersKeepRows(l: Lib, w: World, e: Id, f: Id, u: Upload)
    requires LiveOk(l, w) && e in w.live && f != e && RowMatches(w.cat, f, u) && u.snap != w.live[e].snap
    ensures SameUploadRows(w.cat, UploadFailed(w, e).cat, f, u)
    ensures SameUploadRows(w.cat, UploadCommitted(l, w, e).cat, f, u)
  {
    hide HoldsManifest, RowsWritten, Holds, AtOk, Active;
    assert RowMatches(w.cat, e, w.live[e]);
  }

  lemma FailCommitted(l: Lib, w: World, e: Id)
    requires CatalogOk(w.cat) && CommittedOk(l, w) && LiveOk(l, w) && e in w.live
    ensures CommittedOk(l, UploadFailed(w, e))
  {
    hide CatalogOk, LiveOk, HoldsManifest, RowsWritten, Holds, SameUploadRows;
    var w' := UploadFailed(w, e);
    forall s | s in w.cat.snapshots && w.cat.snapshots[s].status == Committed
      ensures SameUploadRows(w.cat, w'.cat, w.sent[s].0, w.sent[s].1)
    {
      ApartFromLive(l, w, e, s);
      OthersKeepRows(l, w, e, w.sent[s].0, w.sent[s].1);
    }
    CommittedFrame(l, w, w', {});
  }

  lemma FailLive(l: Lib, w: World, e: Id)
    requires CatalogOk(w.cat) && LiveOk(l, w) && e in w.live
    ensures LiveOk(l, UploadFailed(w, e))
  {
    hide CatalogOk, HoldsManifest, RowsWritten, Holds, AtOk, SameUploadRows;
    var w' := UploadFailed(w, e);
    forall f | f in w'.live ensures SameUploadRows(w.cat, w'.cat, f, w.live[f]) {
      LivesApart(l, w, e, f);
      OthersKeepRows(l, w, e, f, w.live[f]);
    }
    assert w.cat.snapshots[w.live[e].snap].status == Uploading;
    LivesFrame(l, w, w', {});
  }

  lemma CommitLive(l: Lib, w: World, e: Id)
    requires CatalogOk(w.cat) && LiveOk(l, w) && e in w.live
    ensures LiveOk(l, UploadCommitted(l, w, e))
  {
    hide CatalogOk, HoldsManifest, RowsWritten, Holds, AtOk, SameUploadRows;
    var w' := UploadCommitted(l, w, e);
    forall f | f in w'.live ensures SameUploadRows(w.cat, w'.cat, f, w.live[f]) {
      LivesApart(l, w, e, f);
      OthersKeepRows(l, w, e, f, w.live[f]);
    }
    LivesFrame(l, w, w', {});
  }

  /** A step on one snapshot outside the dataset being deleted leaves the worker's facts as they were. */
  ghost predicate ElsewhereMoves(w: World, w': World, s: Id) {
    && s in w.cat.snapshots && w.cat.snapshots.Keys == w'.cat.snapshots.Keys
    && (forall t :: t in w.cat.snapshots && t != s ==> w'.cat.snapshots[t] == w.cat.snapshots[t])
    && w'.cat.snapshots[s].dataset == w.cat.snapshots[s].dataset
    && w'.cat.snapshots[s].name == w.cat.snapshots[s].name && w'.cat.snapshots[s].parent == w.cat.snapshots[s].parent
    && w'.cat.datasets == w.cat.datasets && w'.cat.operations.Keys == w.cat.operations.Keys
    && (forall o :: o in w.cat.operations ==> w'.cat.operations[o].kind == w.cat.operations[o].kind)
    && w'.jobs == w.jobs && w'.deletion == w.deletion && w'.issued == w.issued
    && (forall e :: e in w'.live ==> e in w.live && w'.live[e].d == w.live[e].d)
    && !DeletingIn(w, w.cat.snapshots[s].dataset)
  }

  lemma ElsewhereWorker(w: World, w': World, s: Id)
    requires WorkerOk(w) && SnapshotRowsOk(w.cat.datasets, w.cat.snapshots) && ElsewhereMoves(w, w', s)
    ensures WorkerOk(w')
  {
    hide KeysOfJob, ChildlessOk;
    if w.deletion.Some? {
      ElsewhereDeletion(w, w', s, w.deletion.value.job);
    }
  }

  lemma ElsewhereDeletion(w: World, w': World, s: Id, j: Job)
    requires SnapshotRowsOk(w.cat.datasets, w.cat.snapshots) && ElsewhereMoves(w, w', s)
    requires JobOk(w, j) && j.dataset.Some? && w.cat.snapshots[s].dataset != j.dataset.value
    ensures ChildlessOk(w.cat, j) ==> ChildlessOk(w'.cat, j)
    ensures forall keys :: KeysOfJob(w.cat, j, keys) ==> KeysOfJob(w'.cat, j, keys)
    ensures Targets(w'.cat, j) == Targets(w.cat, j) && s !in Targets(w.cat, j)
  {
  }

  lemma NotDeleting(w: World, e: Id)
    requires WorkerOk(w) && e in w.live
    ensures !DeletingIn(w, w.live[e].d)
  {
    hide JobOk, KeysOfJob, ChildlessOk;
  }

  lemma FailElsewhere(w: World, e: Id)
    requires e in w.live && RowMatches(w.cat, e, w.live[e]) && !DeletingIn(w, w.live[e].d)
    ensures ElsewhereMoves(w, UploadFailed(w, e), w.live[e].snap)
  {
  }

  lemma CommitElsewhere(l: Lib, w: World, e: Id)
    requires e in w.live && RowMatches(w.cat, e, w.live[e]) && !DeletingIn(w, w.live[e].d)
    ensures ElsewhereMoves(w, UploadCommitted(l, w, e), w.live[e].snap)
  {
  }

  lemma EndWorker(l: Lib, w: World, e: Id)
    requires WorkerOk(w) && CatalogOk(w.cat) && LiveOk(l, w) && e in w.live
    ensures WorkerOk(UploadFailed(w, e)) && WorkerOk(UploadCommitted(l, w, e))
  {
    hide WorkerOk, SnapshotRowsOk, UploadFailed, UploadCommitted, ElsewhereMoves, DeletingIn;
    hide HoldsManifest, RowsWritten, Holds, AtOk, Active, RowMatches;
    NotDeleting(w, e);
    FailElsewhere(w, e);
    CommitElsewhere(l, w, e);
    ElsewhereWorker(w, UploadFailed(w, e), w.live[e].snap);
    ElsewhereWorker(w, UploadCommitted(l, w, e), w.live[e].snap);
  }

  ghost predicate SameRowKeys(a: Catalog, b: Catalog) {
    && a.datasets.Keys == b.datasets.Keys && a.snapshots.Keys == b.snapshots.Keys
    && a.sessions.Keys == b.sessions.Keys && a.operations.Keys == b.operations.Keys
  }

  lemma SnapshotUpdates(c: Catalog, s: Id, key: Key, facts: Facts)
    ensures SameRowKeys(c, SetSnapshotStatus(c, s, Failed)) && SameRowKeys(c, CommitSnapshot(c, s, key, facts))
  {
  }

  lemma SessionUpdates(c: Catalog, e: Id, key: Key)
    ensures SameRowKeys(c, SetSessionStatus(c, e, SessionFailed)) && SameRowKeys(c, CompleteSession(c, e, key))
  {
  }

  lemma OperationUpdates(c: Catalog, o: Id, status: OperationStatus)
    ensures SameRowKeys(c, SetOperationStatus(c, o, status))
  {
  }

  lemma EndIssued(l: Lib, w: World, e: Id)
    requires e in w.live && IssuedOk(w)
    ensures IssuedOk(UploadFailed(w, e)) && IssuedOk(UploadCommitted(l, w, e))
  {
    hide SetSnapshotStatus, SetSessionStatus, SetOperationStatus, CommitSnapshot, CompleteSession, FactsOf;
    var u := w.live[e];
    var key := ManifestKey(u.req.ds, u.req.name);
    SnapshotUpdates(w.cat, u.snap, key, FactsOf(l, u));
    var failed := SetSnapshotStatus(w.cat, u.snap, Failed);
    SessionUpdates(failed, e, key);
    OperationUpdates(SetSessionStatus(failed, e, SessionFailed), u.op, OpFailed);
    var stored := CommitSnapshot(w.cat, u.snap, key, FactsOf(l, u));
    SessionUpdates(stored, e, key);
    OperationUpdates(CompleteSession(stored, e, key), u.op, Succeeded);
  }

  lemma UploadFailedKeeps(l: Lib, w: World, e: Id)
    requires Inv(l, w) && w.mode == Serving && e in w.live
    ensures Inv(l, UploadFailed(w, e))
  {
    hide CatalogOk, CommittedOk, LiveOk, WorkerOk, IssuedOk, FailRows;
    EndIssued(l, w, e);
    FailCatalog(l, w, e);
    FailCommitted(l, w, e);
    FailLive(l, w, e);
    EndWorker(l, w, e);
  }

  // ---- committing ----

  lemma CommitRowsOk(l: Lib, w: World, e: Id)
    requires CatalogOk(w.cat) && LiveOk(l, w) && e in w.live && w.live[e].at.Ready?
    ensures CatalogOk(UploadCommitted(l, w, e).cat)
  {
    hide SnapshotRowsOk, SessionRowsOk, ChunkRowsOk, UniqueOk, StatusOk, RefsOk, LinksOk, OperationRowsOk;
    hide HoldsManifest, RowsWritten, Holds, AtOk;
    var u := w.live[e];
    assert RowMatches(w.cat, e, u);
    var c' := UploadCommitted(l, w, e).cat;
    assert c'.sessions.Keys == w.cat.sessions.Keys;
    CommitSnapshots(l, w.cat, e, u);
    CommitReferrers(l, w.cat, e, u);
    CommitStatus(l, w.cat, e, u);
    CommitLinks(l, w.cat, e, u);
  }

  lemma CommitSnapshots(l: Lib, c: Catalog, e: Id, u: Upload)
    requires RowMatches(c, e, u) && SnapshotRowsOk(c.datasets, c.snapshots) && UniqueOk(c.datasets, c.snapshots, c.sessions)
    ensures var c' := CommitRows(l, c, e, u);
      SnapshotRowsOk(c'.datasets, c'.snapshots) && UniqueOk(c'.datasets, c'.snapshots, c'.sessions)
  {
  }

  lemma CommitReferrers(l: Lib, c: Catalog, e: Id, u: Upload)
    requires RowMatches(c, e, u) && SessionRowsOk(c.datasets, c.snapshots, c.sessions)
    requires ChunkRowsOk(c.datasets, c.snapshots, c.sessions, c.chunks)
    requires OperationRowsOk(c.datasets.Keys, c.snapshots, c.sessions.Keys, c.operations)
    ensures var c' := CommitRows(l, c, e, u);
      && SessionRowsOk(c'.datasets, c'.snapshots, c'.sessions)
      && ChunkRowsOk(c'.datasets, c'.snapshots, c'.sessions, c'.chunks)
      && OperationRowsOk(c'.datasets.Keys, c'.snapshots, c'.sessions.Keys, c'.operations)
  {
  }

  lemma CommitStatus(l: Lib, c: Catalog, e: Id, u: Upload)
    requires RowMatches(c, e, u) && c.snapshots[u.snap].status == Uploading
    requires StatusOk(c.snapshots, c.sessions) && RefsOk(c.snapshots, c.sessions)
    requires UniqueOk(c.datasets, c.snapshots, c.sessions)
    ensures var c' := CommitRows(l, c, e, u); StatusOk(c'.snapshots, c'.sessions) && RefsOk(c'.snapshots, c'.sessions)
  {
    var c' := CommitRows(l, c, e, u);
    forall p | Referenceable(c.snapshots, c.sessions, p) ensures Referenceable(c'.snapshots, c'.sessions, p) {
    }
  }

  lemma CommitLinks(l: Lib, c: Catalog, e: Id, u: Upload)
    requires RowMatches(c, e, u) && LinksOk(c.snapshots)
    requires c.snapshots[u.snap].parent.Some? ==> c.snapshots[c.snapshots[u.snap].parent.value].status == Committed
    ensures LinksOk(CommitRows(l, c, e, u).snapshots)
  {
    hide Acyclic, Closed;
    assert ParentsOf(CommitRows(l, c, e, u).snapshots) == ParentsOf(c.snapshots);
  }

  lemma CommitOwn(l: Lib, w: World, e: Id)
    requires LiveOk(l, w) && e in w.live && w.live[e].at.Ready?
    ensures Archived(l, UploadCommitted(l, w, e).cat, w.store, e, w.live[e])
  {
  }

  lemma CommitCommitted(l: Lib, w: World, e: Id)
    requires CatalogOk(w.cat) && CommittedOk(l, w) && LiveOk(l, w) && e in w.live && w.live[e].at.Ready?
    ensures CommittedOk(l, UploadCommitted(l, w, e))
  {
    hide CatalogOk, LiveOk, HoldsManifest, RowsWritten, Holds, SameUploadRows;
    var w' := UploadCommitted(l, w, e);
    forall s | s in w.cat.snapshots && w.cat.snapshots[s].status == Committed
      ensures s != w.live[e].snap && SameUploadRows(w.cat, w'.cat, w.sent[s].0, w.sent[s].1)
    {
      ApartFromLive(l, w, e, s);
      OthersKeepRows(l, w, e, w.sent[s].0, w.sent[s].1);
    }
    CommitOwn(l, w, e);
    CommittedFrame(l, w, w', {w.live[e].snap});
  }

  lemma UploadCommittedKeeps(l: Lib, w: World, e: Id)
    requires Inv(l, w) && w.mode == Serving && e in w.live && w.live[e].at.Ready?
    ensures Inv(l, UploadCommitted(l, w, e))
  {
    hide CatalogOk, CommittedOk, LiveOk, WorkerOk, IssuedOk, CommitRows;
    EndIssued(l, w, e);
    CommitRowsOk(l, w, e);
    CommitCommitted(l, w, e);
    CommitLive(l, w, e);
    EndWorker(l, w, e);
  }

  lemma AbandonKeeps(l: Lib, w: World, e: Id)
    requires Inv(l, w) && w.mode == Serving && e in w.live
    ensures Inv(l, w.(live := w.live - {e}))
  {
    hide CatalogOk, LiveUpload, Archived;
  }
}
