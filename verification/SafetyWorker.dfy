/** The cleanup worker's steps keep the invariant, as long as no deletion overlaps an upload into its dataset. */
module SafetyWorker {
  import opened Base
  import opened Manifests
  import opened Catalogs
  import opened Lineage
  import opened Streams
  import opened Machine
  import opened Invariant
  import opened Safety
  import opened SafetyPurge
  import opened SafetyEnd

  // ---- steps that touch operation rows only ----

  /** Operation rows of uploads are untouched; the kinds of all rows stay. */
  ghost predicate OperationsMove(a: Catalog, b: Catalog) {
    && b == a.(operations := b.operations) && a.operations.Keys <= b.operations.Keys
    && (forall o :: o in a.operations ==> b.operations[o].kind == a.operations[o].kind)
    && (forall o :: o in a.operations && a.operations[o].kind == UploadOp ==> b.operations[o] == a.operations[o])
  }

  lemma OperationsCommitted(l: Lib, w: World, w': World)
    requires CommittedOk(l, w) && OperationsMove(w.cat, w'.cat) && w'.store == w.store && w'.sent == w.sent
    ensures CommittedOk(l, w')
  {
    hide HoldsManifest, RowsWritten, Holds;
    CommittedFrame(l, w, w', {});
  }

  lemma OperationsLive(l: Lib, w: World, w': World)
    requires LiveOk(l, w) && OperationsMove(w.cat, w'.cat) && w'.store == w.store && w'.live == w.live
    ensures LiveOk(l, w')
  {
    hide HoldsManifest, RowsWritten, Holds, AtOk, Active;
    LivesFrame(l, w, w', {});
  }

  lemma OperationsJobs(w: World, w': World, j: Job)
    requires OperationsMove(w.cat, w'.cat) && w.issued <= w'.issued && JobOk(w, j)
    ensures JobOk(w', j)
  {
  }

  /** A job ends, whatever it recorded on its operation row. */
  lemma EndJobKeeps(l: Lib, w: World, status: OperationStatus)
    requires Inv(l, w) && w.mode == Serving && w.jobs != []
    ensures Inv(l, EndJob(w, SetOperationStatus(w.cat, w.jobs[0].op, status)))
  {
    hide CatalogOk, CommittedOk, LiveOk, JobOk, DeletionOk;
    var o := w.jobs[0].op;
    var w' := EndJob(w, SetOperationStatus(w.cat, o, status));
    assert OperationsMove(w.cat, w'.cat) by { JobOperation(w, status); }
    OperationCatalog(w.cat, o, status);
    OperationsCommitted(l, w, w');
    OperationsLive(l, w, w');
    forall i | 0 <= i < |w'.jobs| ensures JobOk(w', w'.jobs[i]) {
      OperationsJobs(w, w', w.jobs[i + 1]);
    }
  }

  /** A job ends although its row could not be updated. */
  lemma DropJobKeeps(l: Lib, w: World)
    requires Inv(l, w) && w.mode == Serving && w.jobs != []
    ensures Inv(l, EndJob(w, w.cat))
  {
    hide CatalogOk, CommittedOk, LiveOk, JobOk, DeletionOk;
    var w' := EndJob(w, w.cat);
    OperationsCommitted(l, w, w');
    OperationsLive(l, w, w');
    forall i | 0 <= i < |w'.jobs| ensures JobOk(w', w'.jobs[i]) {
      OperationsJobs(w, w', w.jobs[i + 1]);
    }
  }

  lemma JobOperation(w: World, status: OperationStatus)
    requires w.jobs != [] && JobOk(w, w.jobs[0])
    ensures OperationsMove(w.cat, SetOperationStatus(w.cat, w.jobs[0].op, status))
  {
  }

  lemma JobQueuedKeeps(l: Lib, w: World, op: Id, d: Id, s: Option<Id>)
    requires Inv(l, w) && w.mode == Serving && op !in w.issued && d in w.cat.datasets
    requires s.Some? ==> s.value in w.cat.snapshots && w.cat.snapshots[s.value].dataset == d
    ensures Inv(l, JobQueued(w, op, d, s))
  {
    hide CommittedOk, LiveOk, JobOk, KeysOfJob, ChildlessOk;
    hide SnapshotRowsOk, SessionRowsOk, ChunkRowsOk, UniqueOk, StatusOk, RefsOk, LinksOk;
    var w' := JobQueued(w, op, d, s);
    assert OperationsMove(w.cat, w'.cat);
    OperationsCommitted(l, w, w');
    OperationsLive(l, w, w');
    forall i | 0 <= i < |w.jobs| ensures JobOk(w', w.jobs[i]) {
      OperationsJobs(w, w', w.jobs[i]);
    }
    if w.deletion.Some? {
      QueueDeletion(w, w', w.deletion.value);
    }
  }

  lemma QueueDeletion(w: World, w': World, x: Deletion)
    requires DeletionOk(w, x) && OperationsMove(w.cat, w'.cat) && w'.live == w.live && w'.jobs == w.jobs
    ensures DeletionOk(w', x)
  {
  }

  lemma ListJobsKeeps(l: Lib, w: World, jobs: seq<Job>)
    requires Inv(l, w) && w.mode == Serving && CanListJobs(w, jobs)
    ensures Inv(l, w.(jobs := jobs))
  {
    hide CommittedOk, LiveUpload;
    hide SessionRowsOk, ChunkRowsOk, UniqueOk, StatusOk, RefsOk, LinksOk;
    assert forall i :: 0 <= i < |jobs| ==> ListedJob(w.cat, jobs[i]);
    var w' := w.(jobs := jobs);
    assert CommittedOk(l, w') by { OperationsCommitted(l, w, w'); }
  }

  lemma JobBegunKeeps(l: Lib, w: World)
    requires Inv(l, w) && w.mode == Serving && CanBeginJob(w)
    ensures Inv(l, JobBegun(w))
  {
    hide Inv;
    var j := w.jobs[0];
    if j.snapshot.None? && j.dataset.None? {
      EndJobKeeps(l, w, OpFailed);
      assert JobBegun(w).cat == SetOperationStatus(w.cat, j.op, OpFailed);
    } else {
      JobStartedKeeps(l, w);
    }
  }

  lemma JobStartedKeeps(l: Lib, w: World)
    requires Inv(l, w) && w.mode == Serving && CanBeginJob(w)
    requires w.jobs[0].snapshot.Some? || w.jobs[0].dataset.Some?
    ensures Inv(l, JobBegun(w))
  {
    hide CatalogOk, CommittedOk, LiveOk, JobOk, UploadingInto;
    var j := w.jobs[0];
    var w' := JobBegun(w);
    assert OperationsMove(w.cat, w'.cat) by { JobOperation(w, Running); }
    OperationCatalog(w.cat, j.op, Running);
    OperationsCommitted(l, w, w');
    OperationsLive(l, w, w');
    forall i | 0 <= i < |w.jobs| ensures JobOk(w', w.jobs[i]) {
      OperationsJobs(w, w', w.jobs[i]);
    }
    HasDataset(w, j);
    SameUploads(w, w', j.dataset);
  }

  lemma HasDataset(w: World, j: Job)
    requires JobOk(w, j) && (j.snapshot.Some? || j.dataset.Some?)
    ensures j.dataset.Some?
  {
  }

  lemma SameUploads(w: World, w': World, d: Option<Id>)
    requires w'.live == w.live
    ensures UploadingInto(w', d) == UploadingInto(w, d)
  {
  }

  lemma JobFailedKeeps(l: Lib, w: World)
    requires Inv(l, w) && w.mode == Serving && w.jobs != [] && w.deletion.Some?
    ensures Inv(l, JobFailed(w))
  {
    EndJobKeeps(l, w, OpFailed);
    hide CatalogOk, CommittedOk, LiveOk, JobOk;
    assert w.deletion.value.job == w.jobs[0];
  }

  // ---- counting and listing ----

  /** The worker only gets past its count when no committed snapshot has the target as its parent. */
  lemma CountZero(c: Catalog, j: Job)
    requires Acyclic(ParentsOf(c.snapshots))
    requires j.snapshot.Some? ==> CountCommittedDescendants(c.snapshots, j.snapshot.value) == 0
    ensures ChildlessOk(c, j)
  {
    if j.snapshot.Some? {
      var children := CommittedChildren(c.snapshots, {j.snapshot.value});
      assert children == {};
      forall t | t in c.snapshots && c.snapshots[t].parent == j.snapshot ensures c.snapshots[t].status != Committed {
        assert t !in children;
      }
    }
  }

  lemma JobCountedKeeps(l: Lib, w: World)
    requires Inv(l, w) && w.mode == Serving && CanCount(w)
    ensures Inv(l, JobCounted(w))
  {
    hide CatalogOk, CommittedOk, LiveOk, JobOk, Acyclic, ChildlessOk;
    var j := w.deletion.value.job;
    if j.snapshot.Some? && CountCommittedDescendants(w.cat.snapshots, j.snapshot.value) > 0 {
      JobFailedKeeps(l, w);
    } else {
      CountZero(w.cat, j);
      var w' := JobCounted(w);
      SameUploads(w, w', j.dataset);
      WorkerMoves(l, w, w');
    }
  }

  /** A step that only advances the current deletion keeps everything else. */
  lemma WorkerMoves(l: Lib, w: World, w': World)
    requires Inv(l, w) && w.mode == Serving && w' == w.(deletion := w'.deletion)
    requires w'.deletion.Some? ==> DeletionOk(w', w'.deletion.value)
    ensures Inv(l, w')
  {
    hide CatalogOk, JobOk, DeletionOk, Archived, LiveUpload;
    forall i | 0 <= i < |w.jobs| ensures JobOk(w', w.jobs[i]) {
      OperationsJobs(w, w', w.jobs[i]);
    }
  }

  lemma ListedKeysOk(w: World, j: Job, keys: seq<Key>)
    requires CatalogOk(w.cat) && JobOk(w, j) && j.dataset.Some?
    requires forall k :: k in keys ==> k in ObjectKeys(w.cat, Targets(w.cat, j))
    ensures KeysOfJob(w.cat, j, keys)
  {
    hide SessionRowsOk, UniqueOk, OperationRowsOk, StatusOk, RefsOk, LinksOk;
    forall k | k in keys
      ensures j.dataset.value in w.cat.datasets && k.ds == w.cat.datasets[j.dataset.value]
      ensures j.snapshot.Some? ==>
        j.snapshot.value in w.cat.snapshots && k.snapshot == w.cat.snapshots[j.snapshot.value].name
    {
      assert k in ObjectKeys(w.cat, Targets(w.cat, j));
    }
  }

  lemma KeysListedKeeps(l: Lib, w: World, keys: seq<Key>)
    requires Inv(l, w) && w.mode == Serving && CanListKeys(w, keys)
    ensures Inv(l, KeysListed(w, keys))
  {
    hide CatalogOk, CommittedOk, LiveOk, JobOk, ChildlessOk, KeysOfJob, ObjectKeys;
    var j := w.deletion.value.job;
    ListedKeysOk(w, j, keys);
    SameUploads(w, KeysListed(w, keys), j.dataset);
    WorkerMoves(l, w, KeysListed(w, keys));
  }

  // ---- invalidating ----

  lemma InvalidateCatalog(w: World, j: Job)
    requires CatalogOk(w.cat) && JobOk(w, j) && j.dataset.Some? && ChildlessOk(w.cat, j)
    ensures CatalogOk(Invalidate(w.cat, Targets(w.cat, j)))
    ensures SameNames(w.cat.snapshots, Invalidate(w.cat, Targets(w.cat, j)).snapshots)
  {
    hide SnapshotRowsOk, SessionRowsOk, ChunkRowsOk, UniqueOk, OperationRowsOk, StatusOk, RefsOk, LinksOk;
    hide ChildlessOk, Targets, JobOk;
    var c' := Invalidate(w.cat, Targets(w.cat, j));
    SameNamesRows(w.cat, c'.snapshots);
    SameNamesReferrers(w.cat, c'.snapshots);
    InvalidateStatus(w.cat, Targets(w.cat, j));
    InvalidateLinks(w, j);
  }

  lemma InvalidateStatus(c: Catalog, gone: set<Id>)
    requires StatusOk(c.snapshots, c.sessions) && RefsOk(c.snapshots, c.sessions)
    ensures StatusOk(Invalidate(c, gone).snapshots, c.sessions) && RefsOk(Invalidate(c, gone).snapshots, c.sessions)
  {
    var snapshots := Invalidate(c, gone).snapshots;
    forall p | Referenceable(c.snapshots, c.sessions, p) ensures Referenceable(snapshots, c.sessions, p) {
    }
  }

  lemma InvalidateLinks(w: World, j: Job)
    requires LinksOk(w.cat.snapshots) && SnapshotRowsOk(w.cat.datasets, w.cat.snapshots)
    requires JobOk(w, j) && j.dataset.Some? && ChildlessOk(w.cat, j)
    ensures LinksOk(Invalidate(w.cat, Targets(w.cat, j)).snapshots)
  {
    hide Acyclic, Closed;
    var snapshots := Invalidate(w.cat, Targets(w.cat, j)).snapshots;
    assert ParentsOf(snapshots) == ParentsOf(w.cat.snapshots);
  }

  lemma InvalidateRow(c: Catalog, gone: set<Id>, e: Id, u: Upload)
    requires RowMatches(c, e, u) && u.snap !in gone
    ensures SameUploadRows(c, Invalidate(c, gone), e, u)
  {
  }

  lemma InvalidateCommitted(l: Lib, w: World)
    requires CommittedOk(l, w) && w.deletion.Some? && w.deletion.value.at.Listed?
    ensures CommittedOk(l, RowsInvalidated(w))
  {
    hide HoldsManifest, Holds, SameUploadRows, RowsWritten;
    var w' := RowsInvalidated(w);
    var gone := Targets(w.cat, w.deletion.value.job);
    forall t | t in w'.cat.snapshots && w'.cat.snapshots[t].status == Committed
      ensures t in w.cat.snapshots && w.cat.snapshots[t].status == Committed
      ensures SameUploadRows(w.cat, w'.cat, w.sent[t].0, w.sent[t].1)
    {
      InvalidateRow(w.cat, gone, w.sent[t].0, w.sent[t].1);
    }
    CommittedFrame(l, w, w', {});
  }

  lemma ElsewhereLive(l: Lib, w: World, e: Id)
    requires LiveOk(l, w) && SnapshotRowsOk(w.cat.datasets, w.cat.snapshots) && e in w.live
    requires w.deletion.Some? && DeletionOk(w, w.deletion.value) && JobOk(w, w.deletion.value.job)
    ensures var gone := Targets(w.cat, w.deletion.value.job);
      && w.live[e].snap !in gone && Some(w.live[e].d) != w.deletion.value.job.dataset
      && w.live[e].snap in w.cat.snapshots && RowMatches(w.cat, e, w.live[e])
      && (w.cat.snapshots[w.live[e].snap].parent.Some? ==> w.cat.snapshots[w.live[e].snap].parent.value !in gone)
  {
    hide HoldsManifest, Holds, RowsWritten, AtOk, KeysOfJob, ChildlessOk;
    assert RowMatches(w.cat, e, w.live[e]);
  }

  lemma InvalidateLive(l: Lib, w: World)
    requires LiveOk(l, w) && SnapshotRowsOk(w.cat.datasets, w.cat.snapshots)
    requires w.deletion.Some? && w.deletion.value.at.Listed?
    requires DeletionOk(w, w.deletion.value) && JobOk(w, w.deletion.value.job)
    ensures LiveOk(l, RowsInvalidated(w))
  {
    hide HoldsManifest, Holds, SameUploadRows, RowsWritten, AtOk, DeletionOk, JobOk, SnapshotRowsOk, Targets;
    var w' := RowsInvalidated(w);
    var gone := Targets(w.cat, w.deletion.value.job);
    forall e | e in w.live
      ensures SameUploadRows(w.cat, w'.cat, e, w.live[e]) && ParentStays(w.cat, w'.cat, w.live[e].snap)
    {
      ElsewhereLive(l, w, e);
      InvalidateRow(w.cat, gone, e, w.live[e]);
    }
    LivesFrame(l, w, w', {});
  }

  lemma InvalidateJob(w: World, w': World, j: Job)
    requires JobOk(w, j) && w'.issued == w.issued
    requires SameNames(w.cat.snapshots, w'.cat.snapshots) && w'.cat.operations == w.cat.operations
    ensures JobOk(w', j)
  {
  }

  lemma InvalidateDeletion(w: World)
    requires w.deletion.Some? && w.deletion.value.at.Listed? && DeletionOk(w, w.deletion.value)
    requires SameNames(w.cat.snapshots, RowsInvalidated(w).cat.snapshots)
    ensures DeletionOk(RowsInvalidated(w), RowsInvalidated(w).deletion.value)
  {
    hide ChildlessOk;
  }

  lemma RowsInvalidatedKeeps(l: Lib, w: World)
    requires Inv(l, w) && w.mode == Serving && w.deletion.Some? && w.deletion.value.at.Listed?
    ensures Inv(l, RowsInvalidated(w))
  {
    hide CommittedOk, LiveOk, JobOk, DeletionOk;
    hide SnapshotRowsOk, SessionRowsOk, ChunkRowsOk, UniqueOk, OperationRowsOk, StatusOk, RefsOk, LinksOk;
    var j := w.deletion.value.job;
    var w' := RowsInvalidated(w);
    CurrentJob(w);
    InvalidateCatalog(w, j);
    InvalidateCommitted(l, w);
    InvalidateLive(l, w);
    InvalidateDeletion(w);
    forall i | 0 <= i < |w.jobs| ensures JobOk(w', w.jobs[i]) {
      InvalidateJob(w, w', w.jobs[i]);
    }
  }

  lemma CurrentJob(w: World)
    requires WorkerOk(w) && w.deletion.Some?
    ensures w.jobs != [] && w.deletion.value.job == w.jobs[0] && JobOk(w, w.deletion.value.job)
    ensures w.deletion.value.job.dataset.Some?
    ensures w.deletion.value.at.Listed? ==> ChildlessOk(w.cat, w.deletion.value.job)
  {
    hide JobOk, KeysOfJob, ChildlessOk;
  }

  // ---- removing objects ----

  /** The key about to be removed belongs to no committed snapshot and to no running upload. */
  lemma RemovedKeyForeign(l: Lib, w: World, s: Id)
    requires CatalogOk(w.cat) && CommittedOk(l, w) && WorkerOk(w) && CanRemove(w)
    requires s in w.cat.snapshots && w.cat.snapshots[s].status == Committed
    ensures var at := w.deletion.value.at;
      at.keys[at.next].ds != w.sent[s].1.req.ds || at.keys[at.next].snapshot != w.sent[s].1.req.name
  {
    hide HoldsManifest, Holds, RowsWritten, ChildlessOk;
    hide SessionRowsOk, ChunkRowsOk, OperationRowsOk, StatusOk, RefsOk, LinksOk;
    var x := w.deletion.value;
    var k := x.at.keys[x.at.next];
    assert k in x.at.keys;
    var u := w.sent[s].1;
    assert RowMatches(w.cat, w.sent[s].0, u);
    if k.ds == u.req.ds {
      assert u.d == x.job.dataset.value;
      assert s !in Targets(w.cat, x.job);
    }
  }

  lemma RemovedKeyElsewhere(l: Lib, w: World, e: Id)
    requires CatalogOk(w.cat) && LiveOk(l, w) && WorkerOk(w) && CanRemove(w) && e in w.live
    ensures var at := w.deletion.value.at; at.keys[at.next].ds != w.live[e].req.ds
  {
    hide HoldsManifest, Holds, RowsWritten, AtOk, ChildlessOk;
    hide SessionRowsOk, ChunkRowsOk, OperationRowsOk, StatusOk, RefsOk, LinksOk;
    var x := w.deletion.value;
    var k := x.at.keys[x.at.next];
    assert k in x.at.keys;
    assert RowMatches(w.cat, e, w.live[e]);
  }

  lemma RemoveCommitted(l: Lib, w: World)
    requires CatalogOk(w.cat) && CommittedOk(l, w) && WorkerOk(w) && CanRemove(w)
    ensures CommittedOk(l, ObjectRemoved(w))
  {
    hide HoldsManifest, Holds, RowsWritten, CatalogOk, WorkerOk;
    var w' := ObjectRemoved(w);
    forall s | s in w.cat.snapshots && w.cat.snapshots[s].status == Committed
      ensures SameObjects(w.store, w'.store, w.sent[s].1.req.ds, w.sent[s].1.req.name)
    {
      RemovedKeyForeign(l, w, s);
    }
    CommittedFrame(l, w, w', {});
  }

  lemma RemoveLive(l: Lib, w: World)
    requires CatalogOk(w.cat) && LiveOk(l, w) && WorkerOk(w) && CanRemove(w)
    ensures LiveOk(l, ObjectRemoved(w))
  {
    hide HoldsManifest, Holds, RowsWritten, CatalogOk, WorkerOk, AtOk;
    var w' := ObjectRemoved(w);
    forall e | e in w.live
      ensures SameObjects(w.store, w'.store, w.live[e].req.ds, w.live[e].req.name)
    {
      RemovedKeyElsewhere(l, w, e);
    }
    LivesFrame(l, w, w', {});
  }

  lemma ObjectRemovedKeeps(l: Lib, w: World)
    requires Inv(l, w) && w.mode == Serving && CanRemove(w)
    ensures Inv(l, ObjectRemoved(w))
  {
    hide CatalogOk, CommittedOk, LiveOk, ChildlessOk, KeysOfJob;
    RemoveCommitted(l, w);
    RemoveLive(l, w);
    SameUploads(w, ObjectRemoved(w), w.deletion.value.job.dataset);
  }

  // ---- the closing transaction ----

  lemma FinishRemoves(w: World) returns (gone: Option<(set<Id>, set<Id>, set<Id>)>)
    requires CatalogOk(w.cat) && WorkerOk(w) && CanFinish(w)
    ensures var j := w.deletion.value.job;
      match gone
      case None => FinishRows(w.cat, j) == SetOperationStatus(w.cat, j.op, OpFailed)
      case Some(g) =>
        && Removable(w.cat, g.0, g.1, g.2)
        && FinishRows(w.cat, j) == SetOperationStatus(Purge(w.cat, g.0, g.1, g.2), j.op, Succeeded)
        && g.1 == Targets(w.cat, j)
  {
    hide CatalogOk, Purge, JobOk, KeysOfJob, Blocked, Removable;
    var j := w.deletion.value.job;
    CurrentJob(w);
    if j.snapshot.Some? {
      var s := j.snapshot.value;
      RemoveSnapshotIsPurge(w.cat, s);
      if Blocked(w.cat, {s}, SessionsOf(w.cat, s)) {
        gone := None;
      } else {
        SnapshotRemovable(w.cat, s, SessionsOf(w.cat, s));
        gone := Some(({}, {s}, SessionsOf(w.cat, s)));
      }
    } else {
      var d := j.dataset.value;
      DatasetDeletable(w.cat, d);
      gone := Some(({d}, DatasetSnapshots(w.cat, d), DatasetSessions(w.cat, d)));
    }
  }

  lemma DatasetDeletable(c: Catalog, d: Id)
    requires CatalogOk(c)
    ensures Removable(c, {d}, DatasetSnapshots(c, d), DatasetSessions(c, d))
    ensures DeleteDataset(c, d) == Some(Purge(c, {d}, DatasetSnapshots(c, d), DatasetSessions(c, d)))
  {
    hide ChunkRowsOk, UniqueOk, OperationRowsOk, StatusOk, RefsOk, LinksOk;
    DatasetRemovable(c, d);
  }

  /** The rows are gone, the worker still holds the job. */
  lemma PurgeKeeps(l: Lib, w: World, w': World, d: set<Id>, s: set<Id>, e: set<Id>)
    requires Inv(l, w) && w.mode == Serving && w.jobs != [] && Removable(w.cat, d, s, e)
    requires forall f :: f in w.live ==> w.live[f].snap !in s
    requires w' == w.(cat := Purge(w.cat, d, s, e), deletion := None)
    ensures Inv(l, w')
  {
    hide CatalogOk, CommittedOk, LiveOk, DeletionOk, JobOk, Removable;
    PurgeCatalog(w.cat, d, s, e);
    PurgeCommitted(l, w, w', d, s, e);
    PurgeLive(l, w, w', d, s, e);
    forall i | 0 <= i < |w.jobs| ensures JobOk(w', w.jobs[i]) {
      PurgeJob(w, w', d, s, e, w.jobs[i]);
    }
  }

  lemma PurgeJob(w: World, w': World, d: set<Id>, s: set<Id>, e: set<Id>, j: Job)
    requires JobOk(w, j) && w'.cat == Purge(w.cat, d, s, e) && w'.issued == w.issued
    ensures JobOk(w', j)
  {
  }

  lemma LivesSpared(l: Lib, w: World)
    requires CatalogOk(w.cat) && LiveOk(l, w) && WorkerOk(w) && w.deletion.Some?
    ensures forall f :: f in w.live ==> w.live[f].snap !in Targets(w.cat, w.deletion.value.job)
  {
    hide LiveUpload, JobOk, DeletionOk, Targets;
    hide SessionRowsOk, ChunkRowsOk, UniqueOk, OperationRowsOk, StatusOk, RefsOk, LinksOk;
    CurrentJob(w);
    forall f | f in w.live ensures w.live[f].snap !in Targets(w.cat, w.deletion.value.job) {
      ElsewhereLive(l, w, f);
    }
  }

  lemma JobFinishedKeeps(l: Lib, w: World)
    requires Inv(l, w) && w.mode == Serving && CanFinish(w)
    ensures Inv(l, JobFinished(w))
  {
    hide CatalogOk, CommittedOk, LiveOk, WorkerOk, FinishRows, Removable, Purge, SetOperationStatus;
    var gone := FinishRemoves(w);
    CurrentJob(w);
    match gone
    case None => EndJobKeeps(l, w, OpFailed);
    case Some(g) =>
      var w1 := w.(cat := Purge(w.cat, g.0, g.1, g.2), deletion := None);
      LivesSpared(l, w);
      PurgeKeeps(l, w, w1, g.0, g.1, g.2);
      EndJobKeeps(l, w1, Succeeded);
      assert JobFinished(w) == EndJob(w1, SetOperationStatus(w1.cat, w1.jobs[0].op, Succeeded));
  }
}
