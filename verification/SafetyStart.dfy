/** Starting an upload, crashing and starting up again keep the invariant. */
module SafetyStart {
  import opened Base
  import opened Manifests
  import opened Catalogs
  import opened Lineage
  import opened Streams
  import opened Machine
  import opened Invariant
  import opened Safety
  import opened SafetyPurge
  import opened SafetyEnd
  import opened SafetyWorker

  // ---- ResolveDataset ----

  ghost predicate DatasetFree(w: World, d: Id, ds: DatasetName) {
    if d in w.cat.datasets then w.cat.datasets[d] == ds else d !in w.issued && ds !in w.cat.datasets.Values
  }

  function WithDataset(w: World, d: Id, ds: DatasetName): World {
    w.(cat := w.cat.(datasets := w.cat.datasets[d := ds]), issued := w.issued + {d})
  }

  lemma DatasetRows(c: Catalog, w: World, d: Id, ds: DatasetName)
    requires c == w.cat && DatasetFree(w, d, ds)
    requires SnapshotRowsOk(c.datasets, c.snapshots) && SessionRowsOk(c.datasets, c.snapshots, c.sessions)
    requires ChunkRowsOk(c.datasets, c.snapshots, c.sessions, c.chunks)
    ensures var datasets := c.datasets[d := ds];
      && SnapshotRowsOk(datasets, c.snapshots) && SessionRowsOk(datasets, c.snapshots, c.sessions)
      && ChunkRowsOk(datasets, c.snapshots, c.sessions, c.chunks)
  {
  }

  lemma DatasetUnique(w: World, d: Id, ds: DatasetName)
    requires UniqueOk(w.cat.datasets, w.cat.snapshots, w.cat.sessions) && DatasetFree(w, d, ds)
    ensures UniqueOk(w.cat.datasets[d := ds], w.cat.snapshots, w.cat.sessions)
  {
    if d !in w.cat.datasets {
      assert forall a :: a in w.cat.datasets ==> w.cat.datasets[a] in w.cat.datasets.Values;
    }
  }

  lemma DatasetCatalog(w: World, d: Id, ds: DatasetName)
    requires CatalogOk(w.cat) && DatasetFree(w, d, ds)
    ensures CatalogOk(WithDataset(w, d, ds).cat)
  {
    hide SnapshotRowsOk, SessionRowsOk, ChunkRowsOk, UniqueOk, StatusOk, RefsOk, LinksOk, DatasetFree;
    DatasetRows(w.cat, w, d, ds);
    DatasetUnique(w, d, ds);
  }

  lemma DatasetUploads(l: Lib, w: World, d: Id, ds: DatasetName)
    requires CommittedOk(l, w) && DatasetFree(w, d, ds)
    ensures CommittedOk(l, WithDataset(w, d, ds))
  {
    hide HoldsManifest, Holds, RowsWritten;
    CommittedFrame(l, w, WithDataset(w, d, ds), {});
  }

  lemma DatasetLives(l: Lib, w: World, d: Id, ds: DatasetName)
    requires LiveOk(l, w) && DatasetFree(w, d, ds)
    ensures LiveOk(l, WithDataset(w, d, ds))
  {
    hide HoldsManifest, Holds, RowsWritten, AtOk, Active;
    LivesFrame(l, w, WithDataset(w, d, ds), {});
  }

  lemma DatasetKeeps(l: Lib, w: World, d: Id, ds: DatasetName)
    requires Inv(l, w) && w.mode == Serving && DatasetFree(w, d, ds)
    ensures Inv(l, WithDataset(w, d, ds))
  {
    hide CatalogOk, CommittedOk, LiveOk, JobOk, DeletionOk;
    var w' := WithDataset(w, d, ds);
    DatasetCatalog(w, d, ds);
    DatasetUploads(l, w, d, ds);
    DatasetLives(l, w, d, ds);
    forall i | 0 <= i < |w.jobs| ensures JobOk(w', w.jobs[i]) {
      DatasetJob(w, d, ds, w.jobs[i]);
    }
    if w.deletion.Some? {
      DatasetDeletion(w, d, ds);
    }
  }

  lemma DatasetJob(w: World, d: Id, ds: DatasetName, j: Job)
    requires JobOk(w, j)
    ensures JobOk(WithDataset(w, d, ds), j)
  {
  }

  lemma DatasetDeletion(w: World, d: Id, ds: DatasetName)
    requires w.deletion.Some? && DeletionOk(w, w.deletion.value) && DatasetFree(w, d, ds)
    ensures DeletionOk(WithDataset(w, d, ds), w.deletion.value)
  {
  }

  // ---- dropping a failed predecessor ----

  function WithoutSnapshot(w: World, p: Id): World {
    w.(cat := Purge(w.cat, {}, {p}, {}))
  }

  lemma PreviousDeletion(w: World, p: Id)
    requires w.deletion.Some? && DeletionOk(w, w.deletion.value) && JobOk(w, w.deletion.value.job)
    requires p in w.cat.snapshots && !DeletingIn(w, w.cat.snapshots[p].dataset)
    ensures DeletionOk(WithoutSnapshot(w, p), w.deletion.value)
  {
    var j := w.deletion.value.job;
    assert p !in Targets(w.cat, j);
    assert Targets(WithoutSnapshot(w, p).cat, j) == Targets(w.cat, j);
  }

  lemma PreviousKeeps(l: Lib, w: World, p: Id)
    requires Inv(l, w) && w.mode == Serving && p in w.cat.snapshots
    requires w.cat.snapshots[p].status in {Failed, Aborted} && !Blocked(w.cat, {p}, {})
    requires !DeletingIn(w, w.cat.snapshots[p].dataset)
    ensures Inv(l, WithoutSnapshot(w, p))
  {
    hide CatalogOk, CommittedOk, LiveUpload, JobOk, DeletionOk, Removable, Blocked, Purge;
    var w' := WithoutSnapshot(w, p);
    SnapshotRemovable(w.cat, p, {});
    forall f | f in w.live ensures w.live[f].snap != p {
      LiveStatus(l, w, f);
    }
    PurgeCatalog(w.cat, {}, {p}, {});
    PurgeCommitted(l, w, w', {}, {p}, {});
    PurgeLive(l, w, w', {}, {p}, {});
    PurgeIssued(w, p);
    forall i | 0 <= i < |w.jobs| ensures JobOk(w', w.jobs[i]) {
      PurgeJob(w, w', {}, {p}, {}, w.jobs[i]);
    }
    if w.deletion.Some? {
      CurrentJob(w);
      PreviousDeletion(w, p);
    }
  }

  lemma PurgeIssued(w: World, p: Id)
    requires IssuedOk(w)
    ensures IssuedOk(WithoutSnapshot(w, p))
  {
  }

  lemma LiveStatus(l: Lib, w: World, f: Id)
    requires LiveOk(l, w) && f in w.live
    ensures w.live[f].snap in w.cat.snapshots && w.cat.snapshots[w.live[f].snap].status == Uploading
  {
    hide HoldsManifest, Holds, RowsWritten, AtOk;
  }

  // ---- inserting the three rows ----

  function WithRows(c: Catalog, t: Start): Catalog {
    c.(snapshots := c.snapshots[t.snap := NewSnapshot(t)],
       sessions := c.sessions[t.sess := NewSession(t)],
       operations := c.operations[t.op := Operation(UploadOp, Running, Some(t.d), Some(t.snap), Some(t.sess))])
  }

  function WithUpload(w: World, t: Start): World {
    w.(cat := WithRows(w.cat, t),
       live := w.live[t.sess := Upload(t.d, t.snap, t.op, t.req, [], Reading)],
       issued := w.issued + {t.snap, t.sess, t.op})
  }

  /** What startUpload has established when it inserts. */
  ghost predicate Insertable(w: World, t: Start) {
    var c := w.cat;
    && t.d in c.datasets && c.datasets[t.d] == t.req.ds
    && t.snap !in c.snapshots && t.sess !in c.sessions && t.op !in c.operations
    && t.snap !in w.issued
    && (match t.base
        case None => t.req.base == ""
        case Some(b) =>
          && b in c.snapshots && c.snapshots[b].dataset == t.d && c.snapshots[b].name == t.req.base
          && t.req.base != "" && c.snapshots[b].status == Committed)
    && (forall s :: s in c.snapshots ==> !(c.snapshots[s].dataset == t.d && c.snapshots[s].name == t.req.name))
    && !DeletingIn(w, t.d)
  }

  lemma InsertRows(w: World, t: Start)
    requires Insertable(w, t) && SnapshotRowsOk(w.cat.datasets, w.cat.snapshots)
    requires SessionRowsOk(w.cat.datasets, w.cat.snapshots, w.cat.sessions)
    ensures var c' := WithRows(w.cat, t);
      SnapshotRowsOk(c'.datasets, c'.snapshots) && SessionRowsOk(c'.datasets, c'.snapshots, c'.sessions)
  {
  }

  lemma InsertUnique(w: World, t: Start)
    requires Insertable(w, t) && UniqueOk(w.cat.datasets, w.cat.snapshots, w.cat.sessions)
    requires SessionRowsOk(w.cat.datasets, w.cat.snapshots, w.cat.sessions)
    ensures var c' := WithRows(w.cat, t); UniqueOk(c'.datasets, c'.snapshots, c'.sessions)
  {
    forall e | e in w.cat.sessions ensures w.cat.sessions[e].snapshot != Some(t.snap) {
    }
  }

  lemma InsertReferrers(w: World, t: Start)
    requires Insertable(w, t)
    requires ChunkRowsOk(w.cat.datasets, w.cat.snapshots, w.cat.sessions, w.cat.chunks)
    requires OperationRowsOk(w.cat.datasets.Keys, w.cat.snapshots, w.cat.sessions.Keys, w.cat.operations)
    ensures var c' := WithRows(w.cat, t);
      && ChunkRowsOk(c'.datasets, c'.snapshots, c'.sessions, c'.chunks)
      && OperationRowsOk(c'.datasets.Keys, c'.snapshots, c'.sessions.Keys, c'.operations)
  {
  }

  lemma InsertStatus(w: World, t: Start)
    requires Insertable(w, t) && StatusOk(w.cat.snapshots, w.cat.sessions) && RefsOk(w.cat.snapshots, w.cat.sessions)
    requires SessionRowsOk(w.cat.datasets, w.cat.snapshots, w.cat.sessions)
    ensures var c' := WithRows(w.cat, t); StatusOk(c'.snapshots, c'.sessions) && RefsOk(c'.snapshots, c'.sessions)
  {
    var c, c' := w.cat, WithRows(w.cat, t);
    forall p | Referenceable(c.snapshots, c.sessions, p) ensures Referenceable(c'.snapshots, c'.sessions, p) {
    }
    if t.base.Some? {
      assert Referenceable(c.snapshots, c.sessions, t.base.value);
    }
  }

  lemma InsertLinks(w: World, t: Start)
    requires Insertable(w, t) && LinksOk(w.cat.snapshots)
    ensures LinksOk(WithRows(w.cat, t).snapshots)
    ensures var p, q := ParentsOf(w.cat.snapshots), ParentsOf(WithRows(w.cat, t).snapshots);
      && (forall s :: s in p ==> Chain(q, s) == Chain(p, s))
      && |Chain(q, t.snap)| == (if t.base.Some? then |Chain(p, t.base.value)| else 0) + 1
  {
    hide Acyclic;
    var p := ParentsOf(w.cat.snapshots);
    assert ParentsOf(WithRows(w.cat, t).snapshots) == p[t.snap := t.base];
    AddLeaf(p, t.snap, t.base);
  }

  lemma InsertCatalog(w: World, t: Start)
    requires CatalogOk(w.cat) && Insertable(w, t)
    ensures CatalogOk(WithRows(w.cat, t))
  {
    hide SnapshotRowsOk, SessionRowsOk, ChunkRowsOk, UniqueOk, OperationRowsOk, StatusOk, RefsOk, LinksOk;
    hide WithRows, Insertable;
    InsertRows(w, t);
    InsertUnique(w, t);
    InsertReferrers(w, t);
    InsertStatus(w, t);
    InsertLinks(w, t);
  }

  lemma InsertSpares(c: Catalog, t: Start, e: Id, u: Upload)
    requires RowMatches(c, e, u) && t.snap !in c.snapshots && t.sess !in c.sessions && t.op !in c.operations
    ensures SameUploadRows(c, WithRows(c, t), e, u)
  {
  }

  lemma InsertCommitted(l: Lib, w: World, t: Start)
    requires CommittedOk(l, w) && Insertable(w, t)
    ensures CommittedOk(l, WithUpload(w, t))
  {
    hide HoldsManifest, Holds, RowsWritten, SameUploadRows;
    var w' := WithUpload(w, t);
    forall s | s in w'.cat.snapshots && w'.cat.snapshots[s].status == Committed
      ensures s in w.cat.snapshots && w.cat.snapshots[s].status == Committed
      ensures SameUploadRows(w.cat, w'.cat, w.sent[s].0, w.sent[s].1)
    {
      InsertSpares(w.cat, t, w.sent[s].0, w.sent[s].1);
    }
    CommittedFrame(l, w, w', {});
  }

  lemma InsertOwn(l: Lib, w: World, t: Start)
    requires CatalogOk(w.cat) && Insertable(w, t)
    ensures var w' := WithUpload(w, t); LiveUpload(l, w'.cat, w'.store, t.sess, w'.live[t.sess])
  {
    hide SnapshotRowsOk, SessionRowsOk, UniqueOk, OperationRowsOk, StatusOk, RefsOk, LinksOk;
  }

  lemma InsertLive(l: Lib, w: World, t: Start)
    requires CatalogOk(w.cat) && LiveOk(l, w) && Insertable(w, t)
    ensures LiveOk(l, WithUpload(w, t))
  {
    hide HoldsManifest, Holds, RowsWritten, AtOk, SameUploadRows, CatalogOk;
    var w' := WithUpload(w, t);
    InsertOwn(l, w, t);
    forall e | e in w.live && e != t.sess ensures SameUploadRows(w.cat, w'.cat, e, w.live[e]) {
      InsertSpares(w.cat, t, e, w.live[e]);
    }
    LivesFrame(l, w, w', {t.sess});
  }

  lemma InsertJob(w: World, t: Start, j: Job)
    requires JobOk(w, j) && Insertable(w, t)
    ensures JobOk(WithUpload(w, t), j)
  {
  }

  lemma InsertDeletion(w: World, t: Start)
    requires w.deletion.Some? && DeletionOk(w, w.deletion.value) && JobOk(w, w.deletion.value.job) && Insertable(w, t)
    ensures DeletionOk(WithUpload(w, t), w.deletion.value)
  {
    var j := w.deletion.value.job;
    var w' := WithUpload(w, t);
    assert Targets(w'.cat, j) == Targets(w.cat, j);
    assert !UploadingInto(w', j.dataset);
  }

  lemma InsertKeeps(l: Lib, w: World, t: Start)
    requires Inv(l, w) && w.mode == Serving && Insertable(w, t)
    ensures Inv(l, WithUpload(w, t))
  {
    hide CatalogOk, CommittedOk, LiveOk, JobOk, DeletionOk, Insertable;
    var w' := WithUpload(w, t);
    InsertCatalog(w, t);
    InsertCommitted(l, w, t);
    InsertLive(l, w, t);
    forall i | 0 <= i < |w.jobs| ensures JobOk(w', w.jobs[i]) {
      InsertJob(w, t, w.jobs[i]);
    }
    if w.deletion.Some? {
      CurrentJob(w);
      InsertDeletion(w, t);
    }
  }

  /** The world just before the inserts. */
  function Cleared(w: World, t: Start): World {
    var w1 := WithDataset(w, t.d, t.req.ds);
    if t.previous.Some? then WithoutSnapshot(w1, t.previous.value) else w1
  }

  lemma ClearedInsertable(w: World, t: Start)
    requires CatalogOk(w.cat) && IssuedOk(w) && CanStart(w, t)
    ensures Insertable(Cleared(w, t), t)
  {
    hide SnapshotRowsOk, SessionRowsOk, ChunkRowsOk, OperationRowsOk, StatusOk, RefsOk, LinksOk, Acyclic, SafeNames, Chain;
  }

  lemma StartedKeeps(l: Lib, w: World, t: Start)
    requires Inv(l, w) && w.mode == Serving && CanStart(w, t)
    ensures Inv(l, Started(w, t))
  {
    hide CatalogOk, CommittedOk, LiveOk, WorkerOk, IssuedOk, Insertable, Acyclic, Purge, SafeNames;
    var w1 := WithDataset(w, t.d, t.req.ds);
    DatasetKeeps(l, w, t.d, t.req.ds);
    if t.previous.Some? {
      PreviousKeeps(l, w1, t.previous.value);
    }
    ClearedInsertable(w, t);
    InsertKeeps(l, Cleared(w, t), t);
    assert Started(w, t) == WithUpload(Cleared(w, t), t);
  }

  // ---- crash and startup ----

  lemma CrashedKeeps(l: Lib, w: World)
    requires Inv(l, w)
    ensures Inv(l, Crashed(w))
  {
    hide CatalogOk, Archived;
  }

  lemma ModeKeeps(l: Lib, w: World, mode: Mode)
    requires Inv(l, w) && w.mode != Serving && ModeOk(w.(mode := mode))
    ensures Inv(l, w.(mode := mode))
  {
    hide CatalogOk, Archived;
  }

  lemma IdleKeeps(l: Lib, w: World, w': World)
    requires Idle(w) && CommittedOk(l, w') && CatalogOk(w'.cat) && IssuedOk(w') && ModeOk(w')
    requires w'.live == w.live && w'.jobs == w.jobs && w'.deletion == w.deletion
    ensures Inv(l, w')
  {
    hide CatalogOk, Archived;
  }

  /** The catalog changes only for a session that is not complete, or for its snapshot. */
  lemma ReconcileCommitted(l: Lib, w: World, w': World, e: Id)
    requires CatalogOk(w.cat) && CommittedOk(l, w) && w'.store == w.store && w'.sent == w.sent
    requires e in w.cat.sessions && w.cat.sessions[e].status != Complete
    requires w'.cat.datasets == w.cat.datasets && w'.cat.chunks == w.cat.chunks
    requires SameNames(w.cat.snapshots, w'.cat.snapshots)
    requires forall t :: t in w.cat.snapshots ==>
      || w'.cat.snapshots[t] == w.cat.snapshots[t]
      || (w.cat.sessions[e].snapshot == Some(t) && w'.cat.snapshots[t].status != Committed)
    requires w'.cat.sessions.Keys == w.cat.sessions.Keys
    requires forall f :: f in w.cat.sessions && f != e ==> w'.cat.sessions[f] == w.cat.sessions[f]
    requires w'.cat.operations.Keys == w.cat.operations.Keys
    requires forall o :: o in w.cat.operations && w.cat.operations[o].session != Some(e) ==>
      w'.cat.operations[o] == w.cat.operations[o]
    ensures CommittedOk(l, w')
  {
    hide HoldsManifest, Holds, RowsWritten, CatalogOk, SameUploadRows;
    forall t | t in w'.cat.snapshots && w'.cat.snapshots[t].status == Committed
      ensures t in w.cat.snapshots && w.cat.snapshots[t].status == Committed && t in w.sent
      ensures SameUploadRows(w.cat, w'.cat, w.sent[t].0, w.sent[t].1)
    {
      ReconcileSpares(l, w, w', e, t);
    }
    hide Archived;
    CommittedFrame(l, w, w', {});
  }

  lemma ReconcileSpares(l: Lib, w: World, w': World, e: Id, t: Id)
    requires CommittedOk(l, w)
    requires e in w.cat.sessions && w.cat.sessions[e].status != Complete
    requires w'.cat.datasets == w.cat.datasets && w'.cat.chunks == w.cat.chunks
    requires SameNames(w.cat.snapshots, w'.cat.snapshots)
    requires t in w'.cat.snapshots && w'.cat.snapshots[t].status == Committed
    requires t in w.cat.snapshots ==>
      || w'.cat.snapshots[t] == w.cat.snapshots[t]
      || (w.cat.sessions[e].snapshot == Some(t) && w'.cat.snapshots[t].status != Committed)
    requires w'.cat.sessions.Keys == w.cat.sessions.Keys
    requires forall f :: f in w.cat.sessions && f != e ==> w'.cat.sessions[f] == w.cat.sessions[f]
    requires w'.cat.operations.Keys == w.cat.operations.Keys
    requires forall o :: o in w.cat.operations && w.cat.operations[o].session != Some(e) ==>
      w'.cat.operations[o] == w.cat.operations[o]
    ensures t in w.cat.snapshots && w.cat.snapshots[t].status == Committed && t in w.sent
    ensures SameUploadRows(w.cat, w'.cat, w.sent[t].0, w.sent[t].1)
  {
    hide HoldsManifest, Holds, RowsWritten;
    assert Archived(l, w.cat, w.store, w.sent[t].0, w.sent[t].1);
  }

  lemma SnapshotReconciledCatalog(w: World)
    requires CatalogOk(w.cat) && ReconcilingAt(w, AtSnapshot) && StaleList(w.cat, w.mode.todo)
    ensures CatalogOk(SnapshotReconciled(w).cat)
    ensures w.cat.sessions[w.mode.todo[0]].snapshot.Some? ==> w.cat.sessions[w.mode.todo[0]].snapshot.value in w.cat.snapshots
  {
    hide ChunkRowsOk, UniqueOk, OperationRowsOk, StatusOk, RefsOk, LinksOk, Active;
    var e := w.mode.todo[0];
    if w.cat.sessions[e].snapshot.Some? {
      SnapshotFailsCatalog(w.cat, w.cat.sessions[e].snapshot.value, e);
    }
  }

  lemma SnapshotReconciledKeeps(l: Lib, w: World)
    requires Inv(l, w) && ReconcilingAt(w, AtSnapshot)
    ensures Inv(l, SnapshotReconciled(w))
  {
    hide CatalogOk, CommittedOk, LiveOk, WorkerOk;
    var w' := SnapshotReconciled(w);
    var e := w.mode.todo[0];
    SnapshotReconciledCatalog(w);
    ReconcileCommitted(l, w, w', e);
    IdleKeeps(l, w, w');
  }

  lemma SessionReconciledKeeps(l: Lib, w: World)
    requires Inv(l, w) && ReconcilingAt(w, AtSession)
    ensures Inv(l, SessionReconciled(w))
  {
    hide CatalogOk, CommittedOk, LiveOk, WorkerOk;
    var w' := SessionReconciled(w);
    var e := w.mode.todo[0];
    SessionFailsCatalog(w.cat, e);
    ReconcileCommitted(l, w, w', e);
    IdleKeeps(l, w, w');
  }

  lemma OperationReconciledKeeps(l: Lib, w: World)
    requires Inv(l, w) && ReconcilingAt(w, AtOperation)
    ensures Inv(l, OperationReconciled(w))
  {
    hide CatalogOk, CommittedOk, LiveOk, WorkerOk;
    var w' := OperationReconciled(w);
    var e := w.mode.todo[0];
    OperationCatalog(w.cat, e, OpFailed);
    ReconcileCommitted(l, w, w', e);
    IdleKeeps(l, w, w');
  }

  // ---- every step, every run ----

  lemma UploadStepKeeps(l: Lib, w: World, step: Step)
    requires Inv(l, w) && w.mode == Serving && Enabled(l, w, step) && OfUpload(step)
    ensures Inv(l, Apply(l, w, step))
  {
    hide Inv, CanStart, RecordedRows;
    match step
    case StartUpload(t) => StartedKeeps(l, w, t);
    case PutChunk(e, data) => PutChunkKeeps(l, w, e, data);
    case RecordChunk(e) => RecordChunkKeeps(l, w, e);
    case Progress(e) => SessionMovedKeeps(l, w, e, WritingChunk, Reading);
    case EndOfStream(e) => SessionMovedKeeps(l, w, e, CommittingManifest, Manifesting);
    case PutManifest(e) => PutManifestKeeps(l, w, e);
    case SetManifestKey(e) => ManifestKeySetKeeps(l, w, e);
    case Commit(e) => UploadCommittedKeeps(l, w, e);
    case Fail(e) => UploadFailedKeeps(l, w, e);
    case Abandon(e) => AbandonKeeps(l, w, e);
    case _ =>
  }

  lemma WorkerStepKeeps(l: Lib, w: World, step: Step)
    requires Inv(l, w) && w.mode == Serving && Enabled(l, w, step) && !OfUpload(step) && !OfStartup(step)
    ensures Inv(l, Apply(l, w, step))
  {
    hide Inv;
    match step
    case QueueSnapshot(op, s) => QueuedSnapshotKeeps(l, w, op, s);
    case QueueDataset(op, d) => JobQueuedKeeps(l, w, op, d, None);
    case ListJobs(jobs) => ListJobsKeeps(l, w, jobs);
    case BeginJob => JobBegunKeeps(l, w);
    case CountDescendants => JobCountedKeeps(l, w);
    case ListKeys(keys) => KeysListedKeeps(l, w, keys);
    case InvalidateRows => RowsInvalidatedKeeps(l, w);
    case RemoveObject => ObjectRemovedKeeps(l, w);
    case FinishJob => JobFinishedKeeps(l, w);
    case FailJob => JobFailedKeeps(l, w);
    case DropJob => DropJobKeeps(l, w);
    case _ =>
  }

  lemma QueuedSnapshotKeeps(l: Lib, w: World, op: Id, s: Id)
    requires Inv(l, w) && w.mode == Serving && op !in w.issued && s in w.cat.snapshots
    ensures Inv(l, JobQueued(w, op, w.cat.snapshots[s].dataset, Some(s)))
  {
    hide CommittedOk, LiveOk, WorkerOk;
    hide SessionRowsOk, ChunkRowsOk, UniqueOk, OperationRowsOk, StatusOk, RefsOk, LinksOk;
    JobQueuedKeeps(l, w, op, w.cat.snapshots[s].dataset, Some(s));
  }

  lemma StartupStepKeeps(l: Lib, w: World, step: Step)
    requires Inv(l, w) && Enabled(l, w, step) && OfStartup(step)
    ensures Inv(l, Apply(l, w, step))
  {
    hide CatalogOk, CommittedOk, LiveOk, IssuedOk, WorkerOk, EnabledServing, CanStart;
    match step
    case Crash => CrashedKeeps(l, w);
    case ListStale(stale) => ModeKeeps(l, w, Reconciling(stale, AtSnapshot));
    case ReconcileSnapshot => SnapshotReconciledKeeps(l, w);
    case ReconcileSession => SessionReconciledKeeps(l, w);
    case ReconcileOperation => OperationReconciledKeeps(l, w);
    case Serve => ModeKeeps(l, w, Serving);
    case _ =>
  }

  lemma OnlyServing(l: Lib, w: World, step: Step)
    requires Enabled(l, w, step) && !OfStartup(step)
    ensures w.mode == Serving
  {
    hide EnabledServing;
  }

  lemma StepKeeps(l: Lib, w: World, step: Step)
    requires Inv(l, w) && Enabled(l, w, step)
    ensures Inv(l, Apply(l, w, step))
  {
    hide Inv, Enabled, Apply;
    if OfStartup(step) {
      StartupStepKeeps(l, w, step);
    } else {
      OnlyServing(l, w, step);
      if OfUpload(step) {
        UploadStepKeeps(l, w, step);
      } else {
        WorkerStepKeeps(l, w, step);
      }
    }
  }

  lemma InitialInv(l: Lib)
    ensures Inv(l, INITIAL)
  {
    assert IsRank(ParentsOf(EMPTY.snapshots), map[]);
  }

  lemma {:induction false} RunKeeps(l: Lib, w: World, steps: seq<Step>)
    requires Inv(l, w) && IsRun(l, w, steps)
    ensures Inv(l, After(l, w, steps))
    decreases |steps|
  {
    hide Inv, Enabled, Apply;
    if steps != [] {
      StepKeeps(l, w, steps[0]);
      RunKeeps(l, Apply(l, w, steps[0]), steps[1..]);
    }
  }
}
