/** Everything the service can do meanwhile leaves the footprint of a pending deletion as it is: uploads into other
    datasets, other deletions, queueing, crashes and startup reconciliation. */
module Interruptions {
  import opened Base
  import opened Manifests
  import opened Catalogs
  import opened Lineage
  import opened Streams
  import opened Machine
  import opened Invariant
  import opened SafetyStart
  import opened SafetyWorker
  import opened SafetyPurge
  import opened Theorems
  import AutoReceive
  import opened UploadFrames
  import opened Deletions
  import opened DeletionRuns
  import opened Footprints

  /** A cleanup operation on a dataset that is there, nothing being uploaded into it. */
  ghost predicate Standing(w: World, d: Id, name: DatasetName, o: Id) {
    && d in w.cat.datasets && w.cat.datasets[d] == name && !UploadingInto(w, Some(d))
    && o in w.cat.operations && w.cat.operations[o].kind == CleanupOp && w.cat.operations[o].session == None
    && w.cat.operations[o].dataset == Some(d)
  }

  ghost predicate Untouched(w: World, w': World, d: Id, name: DatasetName, o: Id) {
    SameFoot(DiskOf(w), DiskOf(w'), d, name, o)
  }

  lemma SameDisk(w: World, w': World, d: Id, name: DatasetName, o: Id)
    requires w'.cat == w.cat && w'.store == w.store
    ensures Untouched(w, w', d, name, o)
  {
    SelfFoot(DiskOf(w), d, name, o);
  }

  lemma CatalogRows(c: Catalog)
    requires CatalogOk(c)
    ensures RowsOk(c)
  {
    hide SnapshotRowsOk, SessionRowsOk, ChunkRowsOk, OperationRowsOk, UniqueOk, StatusOk, RefsOk, LinksOk;
  }

  // ---- uploads into other datasets ----

  lemma KeptElsewhere(a: Catalog, b: Catalog, t: Start, d: Id, o: Id)
    requires KeptRows(a, b, t) && t.op != o
    requires t.snap in a.snapshots && a.snapshots[t.snap].dataset != d
    requires t.sess in a.sessions && a.sessions[t.sess].dataset != d
    ensures SameRows(a, b, d, o)
  {
    assert SameChunks(a, b, d) by { KeptChunksElsewhere(a, b, t, d); }
    hide SameChunks, KeptChunks;
  }

  lemma KeptChunksElsewhere(a: Catalog, b: Catalog, t: Start, d: Id)
    requires KeptSnapshots(a.snapshots, b.snapshots, t.snap) && KeptChunks(a.chunks, b.chunks, t.snap)
    requires t.snap in a.snapshots && a.snapshots[t.snap].dataset != d
    ensures SameChunks(a, b, d)
  {
    forall k ensures SameChunkAt(a, b, d, k) {
    }
  }

  lemma LiveElsewhere(l: Lib, w: World, e: Id, d: Id, name: DatasetName, o: Id)
    requires CatalogOk(w.cat) && LiveOk(l, w) && e in w.live && Standing(w, d, name, o)
    ensures var u := w.live[e];
      && u.snap in w.cat.snapshots && w.cat.snapshots[u.snap].dataset == u.d != d
      && e in w.cat.sessions && w.cat.sessions[e].dataset == u.d && u.op != o && u.req.ds != name
  {
    hide ChunkRowsOk, OperationRowsOk, StatusOk, RefsOk, LinksOk, Holds, RowsWritten, AtOk, Active;
    assert RowMatches(w.cat, e, w.live[e]);
    assert w.live[e].d != d;
  }

  lemma UploadElsewhere(l: Lib, w: World, step: Step, d: Id, name: DatasetName, o: Id)
    requires Inv(l, w) && Enabled(l, w, step) && OfUpload(step) && !step.StartUpload? && Standing(w, d, name, o)
    ensures Untouched(w, Apply(l, w, step), d, name, o)
  {
    hide CatalogOk, CommittedOk, LiveOk, WorkerOk, ModeOk, IssuedOk, KeptRows, SameRows, ApplyStartup, RecordedRows;
    LiveElsewhere(l, w, step.e, d, name, o);
    UploadKept(l, w, step);
    KeptElsewhere(w.cat, Apply(l, w, step).cat, StartOf(step.e, w.live[step.e]), d, o);
    UploadStores(l, w, step, name);
  }

  lemma UploadStores(l: Lib, w: World, step: Step, name: DatasetName)
    requires Enabled(l, w, step) && OfUpload(step) && !step.StartUpload? && w.live[step.e].req.ds != name
    ensures SameStored(w.store, Apply(l, w, step).store, name)
  {
    hide RecordedRows, ManifestOf, WellFormed, CommitRows, FailRows, ApplyStartup;
  }

  // ---- removals elsewhere ----

  lemma PurgeElsewhere(c: Catalog, d: Id, o: Id, ds: set<Id>, s: set<Id>, e: set<Id>)
    requires RowsOk(c) && d !in ds
    requires forall t :: t in s && t in c.snapshots ==> c.snapshots[t].dataset != d
    requires forall f :: f in e && f in c.sessions ==> c.sessions[f].dataset != d
    requires o in c.operations ==>
      && (c.operations[o].dataset.Some? ==> c.operations[o].dataset.value !in ds)
      && (c.operations[o].snapshot.Some? ==> c.operations[o].snapshot.value !in s)
      && (c.operations[o].session.Some? ==> c.operations[o].session.value !in e)
    ensures SameRows(c, Purge(c, ds, s, e), d, o)
  {
    PurgeSnapshotsElsewhere(c, d, ds, s, e);
    PurgeSessionsElsewhere(c, d, ds, s, e);
    PurgeChunksElsewhere(c, d, ds, s, e);
    hide SameSnapshots, SameSessions, SameChunks, RowsOk;
  }

  lemma PurgeSnapshotsElsewhere(c: Catalog, d: Id, ds: set<Id>, s: set<Id>, e: set<Id>)
    requires forall t :: t in s && t in c.snapshots ==> c.snapshots[t].dataset != d
    ensures SameSnapshots(c.snapshots, Purge(c, ds, s, e).snapshots, d)
  {
  }

  lemma PurgeSessionsElsewhere(c: Catalog, d: Id, ds: set<Id>, s: set<Id>, e: set<Id>)
    requires SessionRowsOk(c.datasets, c.snapshots, c.sessions)
    requires forall t :: t in s && t in c.snapshots ==> c.snapshots[t].dataset != d
    requires forall f :: f in e && f in c.sessions ==> c.sessions[f].dataset != d
    ensures SameSessions(c.sessions, Purge(c, ds, s, e).sessions, d)
  {
    var after := Purge(c, ds, s, e).sessions;
    forall f | f in c.sessions && c.sessions[f].dataset == d ensures f in after && after[f] == c.sessions[f] {
      assert c.sessions[f].snapshot.Some? ==> InDataset(c.snapshots, c.sessions[f].snapshot.value, d);
    }
  }

  lemma PurgeChunksElsewhere(c: Catalog, d: Id, ds: set<Id>, s: set<Id>, e: set<Id>)
    requires RowsOk(c)
    requires forall t :: t in s && t in c.snapshots ==> c.snapshots[t].dataset != d
    requires forall f :: f in e && f in c.sessions ==> c.sessions[f].dataset != d
    ensures SameChunks(c, Purge(c, ds, s, e), d)
  {
    forall k ensures SameChunkAt(c, Purge(c, ds, s, e), d, k) {
      PurgedRow(c, d, ds, s, e, k);
      if k in c.chunks && InDataset(c.snapshots, k.0, d) {
        ChunkSession(c, k);
      }
    }
  }

  lemma ChunkSession(c: Catalog, k: (Id, nat))
    requires RowsOk(c) && k in c.chunks
    ensures k.0 in c.snapshots && c.chunks[k].session in c.sessions
    ensures c.sessions[c.chunks[k].session].dataset == c.snapshots[k.0].dataset
  {
  }

  // ---- starting an upload elsewhere ----

  lemma DatasetElsewhere(c: Catalog, e: Id, ds: DatasetName, d: Id, o: Id)
    requires e != d
    ensures SameRows(c, c.(datasets := c.datasets[e := ds]), d, o)
  {
    var b := c.(datasets := c.datasets[e := ds]);
    forall k ensures SameChunkAt(c, b, d, k) {
    }
  }

  lemma InsertElsewhere(c: Catalog, t: Start, d: Id, o: Id)
    requires t.snap !in c.snapshots && t.sess !in c.sessions && t.d != d && t.op != o
    ensures SameRows(c, WithRows(c, t), d, o)
  {
    var b := WithRows(c, t);
    forall k ensures SameChunkAt(c, b, d, k) {
    }
    hide SameChunks;
  }

  /** Rows of another dataset that the operation does not refer to. */
  lemma ReferenceApart(c: Catalog, d: Id, o: Id, p: Id)
    requires CatalogOk(c) && o in c.operations && c.operations[o].kind == CleanupOp && c.operations[o].dataset == Some(d)
    requires p in c.snapshots && c.snapshots[p].dataset != d
    ensures c.operations[o].snapshot != Some(p)
  {
    hide SnapshotRowsOk, SessionRowsOk, ChunkRowsOk, UniqueOk, StatusOk, RefsOk, LinksOk;
  }

  lemma StartElsewhere(l: Lib, w: World, t: Start, d: Id, name: DatasetName, o: Id)
    requires Inv(l, w) && w.mode == Serving && CanStart(w, t) && Standing(w, d, name, o) && t.d != d
    ensures Untouched(w, Started(w, t), d, name, o)
  {
    hide CommittedOk, LiveOk, WorkerOk, ModeOk, CatalogOk, RowsOk, SameRows, Acyclic, Chain, Blocked, SafeNames, Purge;
    var c := w.cat;
    var c0 := c.(datasets := c.datasets[t.d := t.req.ds]);
    DatasetElsewhere(c, t.d, t.req.ds, d, o);
    DatasetCatalog(w, t.d, t.req.ds);
    CatalogRows(c0);
    var c1 := if t.previous.Some? then Purge(c0, {}, {t.previous.value}, {}) else c0;
    if t.previous.Some? {
      ReferenceApart(c0, d, o, t.previous.value);
      PurgeElsewhere(c0, d, o, {}, {t.previous.value}, {});
      RowsTransitive(c, c0, c1, d, o);
    }
    assert t.snap !in c1.snapshots && t.sess !in c1.sessions by { FreshRows(w, t, c0); }
    InsertElsewhere(c1, t, d, o);
    RowsTransitive(c, c1, WithRows(c1, t), d, o);
    assert Started(w, t).cat == WithRows(c1, t);
  }

  lemma FreshRows(w: World, t: Start, c0: Catalog)
    requires IssuedOk(w) && t.snap !in w.issued && t.sess !in w.issued
    requires c0 == w.cat.(datasets := w.cat.datasets[t.d := t.req.ds])
    ensures t.snap !in c0.snapshots && t.sess !in c0.sessions
    ensures t.previous.Some? ==>
      var c1 := Purge(c0, {}, {t.previous.value}, {}); t.snap !in c1.snapshots && t.sess !in c1.sessions
  {
  }

  // ---- other deletions ----

  lemma StatusElsewhere(c: Catalog, p: Id, status: OperationStatus, d: Id, o: Id)
    requires p != o
    ensures SameRows(c, SetOperationStatus(c, p, status), d, o)
  {
    MarkingRows(c, p, status);
    var b := SetOperationStatus(c, p, status);
    assert SameRow(c.operations, b.operations, o);
    hide SetOperationStatus;
    forall k ensures SameChunkAt(c, b, d, k) {
    }
  }

  lemma InvalidateElsewhere(c: Catalog, gone: set<Id>, d: Id, o: Id)
    requires forall s :: s in gone && s in c.snapshots ==> c.snapshots[s].dataset != d
    ensures SameRows(c, Invalidate(c, gone), d, o)
  {
    var b := Invalidate(c, gone);
    forall k ensures SameChunkAt(c, b, d, k) {
    }
    hide SameChunks;
  }

  /** What another job removes lies in its own dataset. */
  lemma FinishElsewhere(c: Catalog, j: Job, d: Id, o: Id)
    requires CatalogOk(c) && JobRefs(c, j) && j.dataset.Some? && j.dataset != Some(d) && j.op != o
    requires o in c.operations && c.operations[o].kind == CleanupOp && c.operations[o].session == None
    requires c.operations[o].dataset == Some(d)
    ensures SameRows(c, FinishRows(c, j), d, o)
  {
    hide CatalogOk, RowsOk, SameRows, Purge, Blocked, SetOperationStatus, RemoveSnapshot;
    CatalogRows(c);
    StatusElsewhere(c, j.op, OpFailed, d, o);
    if j.snapshot.Some? {
      var s := j.snapshot.value;
      RemoveSnapshotIsPurge(c, s);
      if !Blocked(c, {s}, SessionsOf(c, s)) {
        SessionsElsewhere(c, s, d);
        if s in c.snapshots { ReferenceApart(c, d, o, s); } else { GoneReference(c, o, s); }
        PurgeElsewhere(c, d, o, {}, {s}, SessionsOf(c, s));
        var b := Purge(c, {}, {s}, SessionsOf(c, s));
        StatusElsewhere(b, j.op, Succeeded, d, o);
        RowsTransitive(c, b, SetOperationStatus(b, j.op, Succeeded), d, o);
      }
    } else {
      var e := j.dataset.value;
      DatasetDeletable(c, e);
      assert c.operations[o].snapshot.Some? ==> c.operations[o].snapshot.value !in DatasetSnapshots(c, e) by {
        if c.operations[o].snapshot.Some? && c.operations[o].snapshot.value in DatasetSnapshots(c, e) {
          ReferenceApart(c, d, o, c.operations[o].snapshot.value);
        }
      }
      PurgeElsewhere(c, d, o, {e}, DatasetSnapshots(c, e), DatasetSessions(c, e));
      var b := Purge(c, {e}, DatasetSnapshots(c, e), DatasetSessions(c, e));
      StatusElsewhere(b, j.op, Succeeded, d, o);
      RowsTransitive(c, b, SetOperationStatus(b, j.op, Succeeded), d, o);
    }
  }

  lemma GoneReference(c: Catalog, o: Id, s: Id)
    requires CatalogOk(c) && o in c.operations && s !in c.snapshots
    ensures c.operations[o].snapshot != Some(s)
  {
    hide SnapshotRowsOk, SessionRowsOk, ChunkRowsOk, UniqueOk, StatusOk, RefsOk, LinksOk;
  }

  lemma SessionsElsewhere(c: Catalog, s: Id, d: Id)
    requires RowsOk(c) && (s in c.snapshots ==> c.snapshots[s].dataset != d)
    ensures forall f :: f in SessionsOf(c, s) && f in c.sessions ==> c.sessions[f].dataset != d
  {
    hide SnapshotRowsOk, ChunkRowsOk;
  }

  /** The worker's steps on its current job. */
  predicate WorksOnJob(step: Step) {
    step.BeginJob? || step.CountDescendants? || step.ListKeys? || step.InvalidateRows? || step.RemoveObject?
    || step.FinishJob? || step.FailJob? || step.DropJob?
  }

  /** The worker is at another deletion. */
  ghost predicate OtherJob(w: World, d: Id, o: Id) {
    w.jobs != [] ==> w.jobs[0].op != o && w.jobs[0].dataset != Some(d)
  }

  lemma CurrentDeletion(w: World)
    requires WorkerOk(w) && w.deletion.Some?
    ensures w.jobs != [] && w.deletion.value.job == w.jobs[0] && w.jobs[0].dataset.Some? && JobRefs(w.cat, w.jobs[0])
  {
    hide KeysOfJob, ChildlessOk, UploadingInto;
  }

  lemma TargetsElsewhere(c: Catalog, j: Job, d: Id)
    requires JobRefs(c, j) && j.dataset.Some? && j.dataset != Some(d)
    ensures forall s :: s in Targets(c, j) && s in c.snapshots ==> c.snapshots[s].dataset != d
  {
  }

  lemma KeyElsewhere(w: World, d: Id, name: DatasetName, o: Id)
    requires CatalogOk(w.cat) && WorkerOk(w) && CanRemove(w) && Standing(w, d, name, o)
    requires w.deletion.value.job.dataset != Some(d)
    ensures w.deletion.value.at.keys[w.deletion.value.at.next].ds != name
  {
    hide SnapshotRowsOk, SessionRowsOk, ChunkRowsOk, OperationRowsOk, StatusOk, RefsOk, LinksOk, JobOk, ChildlessOk;
    hide UploadingInto;
    var at := w.deletion.value.at;
    assert at.keys[at.next] in at.keys;
  }

  lemma BegunElsewhere(w: World, d: Id, name: DatasetName, o: Id)
    requires w.jobs != [] && w.jobs[0].op != o
    ensures Untouched(w, JobBegun(w), d, name, o)
  {
    hide SameRows, SetOperationStatus;
    SelfFoot(DiskOf(w), d, name, o);
    var p := w.jobs[0].op;
    var c1 := SetOperationStatus(w.cat, p, Running);
    StatusElsewhere(w.cat, p, Running, d, o);
    StatusElsewhere(c1, p, OpFailed, d, o);
    RowsTransitive(w.cat, c1, SetOperationStatus(c1, p, OpFailed), d, o);
  }

  lemma FailedElsewhere(w: World, d: Id, name: DatasetName, o: Id)
    requires w.jobs != [] && w.deletion.Some? && w.deletion.value.job == w.jobs[0] && w.jobs[0].op != o
    ensures Untouched(w, JobFailed(w), d, name, o)
    ensures CanCount(w) ==> Untouched(w, JobCounted(w), d, name, o)
  {
    hide SameRows, SetOperationStatus, Acyclic, CountCommittedDescendants;
    SelfFoot(DiskOf(w), d, name, o);
    StatusElsewhere(w.cat, w.jobs[0].op, OpFailed, d, o);
  }

  lemma RemovalElsewhere(w: World, d: Id, name: DatasetName, o: Id)
    requires CatalogOk(w.cat) && WorkerOk(w) && Standing(w, d, name, o) && OtherJob(w, d, o) && w.deletion.Some?
    ensures w.deletion.value.at.Listed? ==> Untouched(w, RowsInvalidated(w), d, name, o)
    ensures CanRemove(w) ==> Untouched(w, ObjectRemoved(w), d, name, o)
    ensures w.jobs != [] && Untouched(w, JobFinished(w), d, name, o)
  {
    hide CatalogOk, WorkerOk, SameRows, JobRefs, FinishRows, Invalidate, Targets, UploadingInto;
    SelfFoot(DiskOf(w), d, name, o);
    CurrentDeletion(w);
    TargetsElsewhere(w.cat, w.jobs[0], d);
    InvalidateElsewhere(w.cat, Targets(w.cat, w.jobs[0]), d, o);
    if CanRemove(w) {
      KeyElsewhere(w, d, name, o);
    }
    FinishElsewhere(w.cat, w.jobs[0], d, o);
  }

  lemma JobElsewhere(l: Lib, w: World, step: Step, d: Id, name: DatasetName, o: Id)
    requires Inv(l, w) && Enabled(l, w, step) && WorksOnJob(step) && Standing(w, d, name, o) && OtherJob(w, d, o)
    ensures Untouched(w, Apply(l, w, step), d, name, o)
  {
    hide CommittedOk, LiveOk, ModeOk, IssuedOk, CatalogOk, WorkerOk, Untouched, JobBegun, JobFailed, JobCounted;
    hide RowsInvalidated, ObjectRemoved, JobFinished, ApplyUpload, ApplyStartup, Standing, UploadingInto, Acyclic;
    hide Targets, ObjectKeys;
    if w.deletion.Some? {
      CurrentDeletion(w);
      RemovalElsewhere(w, d, name, o);
      FailedElsewhere(w, d, name, o);
    }
    if step.BeginJob? {
      BegunElsewhere(w, d, name, o);
    } else if step.ListKeys? {
      SameDisk(w, KeysListed(w, step.keys), d, name, o);
    } else if step.DropJob? {
      SameDisk(w, EndJob(w, w.cat), d, name, o);
    }
  }

  lemma QueuedElsewhere(w: World, p: Id, e: Id, s: Option<Id>, d: Id, name: DatasetName, o: Id)
    requires p != o
    ensures Untouched(w, JobQueued(w, p, e, s), d, name, o)
  {
    var b := JobQueued(w, p, e, s).cat;
    forall k ensures SameChunkAt(w.cat, b, d, k) {
    }
  }

  // ---- crash and startup ----

  lemma SnapshotFailsSame(c: Catalog, s: Id, d: Id, o: Id)
    requires s in c.snapshots ==> c.snapshots[s].status != Committed
    ensures SameRows(c, SetSnapshotStatus(c, s, Failed), d, o)
  {
    var b := SetSnapshotStatus(c, s, Failed);
    forall k ensures SameChunkAt(c, b, d, k) {
    }
    hide SameChunks;
  }

  lemma SessionFailsSame(c: Catalog, e: Id, d: Id, o: Id)
    requires e in c.sessions ==> c.sessions[e].status != Complete
    ensures SameRows(c, SetSessionStatus(c, e, SessionFailed), d, o)
  {
    var b := SetSessionStatus(c, e, SessionFailed);
    forall k ensures SameChunkAt(c, b, d, k) {
    }
    hide SameChunks;
  }

  lemma OperationsFailSame(c: Catalog, e: Id, d: Id, o: Id)
    requires o in c.operations ==> c.operations[o].session == None
    ensures SameRows(c, FailOperationsOf(c, e), d, o)
  {
    var b := FailOperationsOf(c, e);
    forall k ensures SameChunkAt(c, b, d, k) {
    }
    hide SameChunks;
  }

  /** A session still to be reconciled is not complete, and its snapshot is not committed. */
  lemma StaleSession(l: Lib, w: World)
    requires Inv(l, w) && w.mode.Reconciling? && w.mode.todo != []
    ensures var e := w.mode.todo[0];
      && e in w.cat.sessions && w.cat.sessions[e].status != Complete
      && (w.mode.at != AtOperation && w.cat.sessions[e].snapshot.Some?
          && w.cat.sessions[e].snapshot.value in w.cat.snapshots ==>
            w.cat.snapshots[w.cat.sessions[e].snapshot.value].status != Committed)
  {
    hide SnapshotRowsOk, SessionRowsOk, ChunkRowsOk, OperationRowsOk, UniqueOk, RefsOk, LinksOk, CommittedOk, LiveOk;
    hide WorkerOk, IssuedOk, Idle;
  }

  lemma StartupSame(l: Lib, w: World, step: Step, d: Id, name: DatasetName, o: Id)
    requires Inv(l, w) && Enabled(l, w, step) && OfStartup(step) && Standing(w, d, name, o)
    ensures Untouched(w, Apply(l, w, step), d, name, o)
  {
    hide Inv, SameRows, EnabledServing, StaleList, ApplyUpload, SetSnapshotStatus, SetSessionStatus, FailOperationsOf;
    SelfFoot(DiskOf(w), d, name, o);
    if step.ReconcileSnapshot? || step.ReconcileSession? || step.ReconcileOperation? {
      var e := w.mode.todo[0];
      StaleSession(l, w);
      if step.ReconcileSnapshot? && w.cat.sessions[e].snapshot.Some? {
        SnapshotFailsSame(w.cat, w.cat.sessions[e].snapshot.value, d, o);
      } else if step.ReconcileSession? {
        SessionFailsSame(w.cat, e, d, o);
      } else if step.ReconcileOperation? {
        OperationsFailSame(w.cat, e, d, o);
      }
    }
  }

  // ---- any step elsewhere ----

  /** A step that is not one of this deletion, nor an upload into its dataset. */
  ghost predicate Elsewhere(w: World, step: Step, d: Id, o: Id) {
    && (step.StartUpload? ==> step.start.d != d)
    && (WorksOnJob(step) ==> OtherJob(w, d, o))
  }

  lemma OtherStep(l: Lib, w: World, step: Step, d: Id, name: DatasetName, o: Id)
    requires Inv(l, w) && Enabled(l, w, step) && Standing(w, d, name, o) && Elsewhere(w, step, d, o)
    ensures Untouched(w, Apply(l, w, step), d, name, o)
  {
    hide Inv, Untouched, CanStart, OtherJob, Started, JobQueued, Standing;
    if step.StartUpload? {
      StartElsewhere(l, w, step.start, d, name, o);
    } else if OfUpload(step) {
      hide Enabled, Apply;
      UploadElsewhere(l, w, step, d, name, o);
    } else if OfStartup(step) {
      hide Enabled, Apply;
      StartupSame(l, w, step, d, name, o);
    } else if WorksOnJob(step) {
      hide Enabled, Apply;
      JobElsewhere(l, w, step, d, name, o);
    } else {
      QueueElsewhere(l, w, step, d, name, o);
    }
  }

  lemma QueueElsewhere(l: Lib, w: World, step: Step, d: Id, name: DatasetName, o: Id)
    requires Inv(l, w) && Enabled(l, w, step) && Standing(w, d, name, o)
    requires step.QueueSnapshot? || step.QueueDataset? || step.ListJobs?
    ensures Untouched(w, Apply(l, w, step), d, name, o)
  {
    hide Untouched, CatalogOk, CommittedOk, LiveOk, WorkerOk, ModeOk, ListedJob, JobQueued;
    if step.QueueSnapshot? {
      QueuedElsewhere(w, step.op, w.cat.snapshots[step.s].dataset, Some(step.s), d, name, o);
    } else if step.QueueDataset? {
      QueuedElsewhere(w, step.op, step.d, None, d, name, o);
    } else {
      SameDisk(w, w.(jobs := step.jobs), d, name, o);
    }
  }

  lemma UploadLive(l: Lib, w: World, step: Step)
    requires Enabled(l, w, step) && OfUpload(step)
    ensures forall e :: e in Apply(l, w, step).live ==>
      || (e in w.live && Apply(l, w, step).live[e].d == w.live[e].d)
      || (step.StartUpload? && Apply(l, w, step).live[e].d == step.start.d)
  {
    hide CanStart, StartRows, CommitRows, FailRows, RecordedRows, ManifestOf, WellFormed, ApplyStartup;
    hide SetSessionStatus, SetSessionManifestKey;
  }

  lemma WorkerLive(l: Lib, w: World, step: Step)
    requires Enabled(l, w, step) && !OfUpload(step)
    ensures Apply(l, w, step).live.Keys <= w.live.Keys
    ensures forall e :: e in Apply(l, w, step).live ==> Apply(l, w, step).live[e] == w.live[e]
  {
    hide FinishRows, ListedJob, StaleList, SetOperationStatus, Invalidate, Targets, ObjectKeys, JobBegun, JobFailed;
    hide JobCounted, ApplyUpload, SetSnapshotStatus, SetSessionStatus, FailOperationsOf, UploadingInto, Acyclic;
    if w.jobs != [] {
      AutoReceive.JobLive(w);
    }
  }

  lemma LiveStays(l: Lib, w: World, step: Step)
    requires Enabled(l, w, step)
    ensures forall e :: e in Apply(l, w, step).live ==>
      || (e in w.live && Apply(l, w, step).live[e].d == w.live[e].d)
      || (step.StartUpload? && Apply(l, w, step).live[e].d == step.start.d)
  {
    hide Enabled, Apply;
    if OfUpload(step) {
      UploadLive(l, w, step);
    } else {
      WorkerLive(l, w, step);
    }
  }

  lemma StillStanding(l: Lib, w: World, step: Step, d: Id, name: DatasetName, o: Id)
    requires Enabled(l, w, step) && Standing(w, d, name, o) && (step.StartUpload? ==> step.start.d != d)
    requires Untouched(w, Apply(l, w, step), d, name, o)
    ensures Standing(Apply(l, w, step), d, name, o)
  {
    hide Enabled, Apply, SameSnapshots, SameSessions, SameChunks;
    LiveStays(l, w, step);
  }
}
