/** How far a queued cleanup operation reaches (internal/deletion/worker.go, internal/web/datasets.go). */
module Cleanups {
  import opened Base
  import opened Manifests
  import opened Catalogs
  import opened Lineage
  import opened Streams
  import opened Machine
  import opened Invariant
  import opened SafetyPurge
  import opened SafetyWorker
  import opened SafetyStart
  import opened Theorems
  import opened Deletions

  // ---- what becomes of the references of a queued operation ----

  /** SET NULL has cleared exactly the references whose rows are gone. */
  ghost predicate Tracks(w: World, o: Id, d: Id, s: Id) {
    && o in w.issued && d in w.issued && s in w.issued
    && o in w.cat.operations && w.cat.operations[o].kind == CleanupOp
    && w.cat.operations[o].snapshot == (if s in w.cat.snapshots then Some(s) else None)
    && w.cat.operations[o].dataset == (if d in w.cat.datasets then Some(d) else None)
  }

  /** A step that neither creates nor removes the three rows, and keeps the operation's references. */
  ghost predicate KeepsReferences(w: World, w': World, o: Id, d: Id, s: Id) {
    && w.issued <= w'.issued && (o in w.cat.operations ==> o in w'.cat.operations)
    && (s in w'.cat.snapshots <==> s in w.cat.snapshots) && (d in w'.cat.datasets <==> d in w.cat.datasets)
    && (o in w.cat.operations ==>
          && w'.cat.operations[o].kind == w.cat.operations[o].kind
          && w'.cat.operations[o].snapshot == w.cat.operations[o].snapshot
          && w'.cat.operations[o].dataset == w.cat.operations[o].dataset)
  }

  lemma StartTracks(w: World, t: Start, o: Id, d: Id, s: Id)
    requires Tracks(w, o, d, s) && CanStart(w, t)
    ensures Tracks(Started(w, t), o, d, s)
  {
    hide Acyclic, Blocked;
  }

  lemma FinishTracks(l: Lib, w: World, o: Id, d: Id, s: Id)
    requires Tracks(w, o, d, s) && CatalogOk(w.cat) && WorkerOk(w) && CanFinish(w)
    ensures Tracks(JobFinished(w), o, d, s)
  {
    hide CatalogOk, WorkerOk, FinishRows, Removable;
    var gone := FinishRemoves(w);
  }

  lemma UploadTracks(l: Lib, w: World, step: Step, o: Id, d: Id, s: Id)
    requires Enabled(l, w, step) && OfUpload(step) && !step.StartUpload?
    ensures KeepsReferences(w, Apply(l, w, step), o, d, s)
  {
    hide ManifestOf, ChunkRowOf, Active, UploadFailed, UploadCommitted, ApplyStartup, Started;
    if step.Commit? || step.Fail? {
      EndTracks(l, w, step.e, o, d, s);
    }
  }

  lemma CommitFrames(l: Lib, c: Catalog, u: Upload, e: Id, key: Key)
    ensures var a := CommitSnapshot(c, u.snap, ManifestKey(u.req.ds, u.req.name), FactsOf(l, u));
      a.snapshots.Keys == c.snapshots.Keys && a.datasets == c.datasets && a.operations == c.operations
    ensures var a := CompleteSession(c, e, key);
      a.snapshots == c.snapshots && a.datasets == c.datasets && a.operations == c.operations
  {
  }

  lemma FailFrames(c: Catalog, s: Id, e: Id)
    ensures var a := SetSnapshotStatus(c, s, Failed);
      a.snapshots.Keys == c.snapshots.Keys && a.datasets == c.datasets && a.operations == c.operations
    ensures var a := SetSessionStatus(c, e, SessionFailed);
      a.snapshots == c.snapshots && a.datasets == c.datasets && a.operations == c.operations
  {
  }

  lemma OperationFrame(c: Catalog, p: Id, status: OperationStatus, o: Id)
    ensures var a := SetOperationStatus(c, p, status);
      && a.snapshots == c.snapshots && a.datasets == c.datasets
      && (o in c.operations ==> o in a.operations && a.operations[o] == c.operations[o].(status := a.operations[o].status))
  {
  }

  lemma EndTracks(l: Lib, w: World, e: Id, o: Id, d: Id, s: Id)
    requires e in w.live
    ensures KeepsReferences(w, UploadCommitted(l, w, e), o, d, s)
    ensures KeepsReferences(w, UploadFailed(w, e), o, d, s)
  {
    hide CommitSnapshot, CompleteSession, SetSnapshotStatus, SetSessionStatus, SetOperationStatus;
    var c, u := w.cat, w.live[e];
    var key := ManifestKey(u.req.ds, u.req.name);
    var c1 := CommitSnapshot(c, u.snap, ManifestKey(u.req.ds, u.req.name), FactsOf(l, u));
    CommitFrames(l, c, u, e, key);
    CommitFrames(l, c1, u, e, key);
    OperationFrame(CompleteSession(c1, e, key), u.op, Succeeded, o);
    var c2 := SetSnapshotStatus(c, u.snap, Failed);
    FailFrames(c, u.snap, e);
    FailFrames(c2, u.snap, e);
    OperationFrame(SetSessionStatus(c2, e, SessionFailed), u.op, OpFailed, o);
  }

  lemma QueueTracks(w: World, op: Id, e: Id, t: Option<Id>, o: Id, d: Id, s: Id)
    requires Tracks(w, o, d, s) && op !in w.issued
    ensures Tracks(JobQueued(w, op, e, t), o, d, s)
  {
  }

  lemma JobTracks(w: World, o: Id, d: Id, s: Id)
    requires w.jobs != []
    ensures KeepsReferences(w, JobBegun(w), o, d, s)
    ensures w.deletion.Some? ==> KeepsReferences(w, JobFailed(w), o, d, s)
    ensures w.deletion.Some? && w.deletion.value.at.Listed? ==> KeepsReferences(w, RowsInvalidated(w), o, d, s)
  {
    hide SetOperationStatus, Targets;
    var p := w.jobs[0].op;
    OperationFrame(w.cat, p, Running, o);
    OperationFrame(SetOperationStatus(w.cat, p, Running), p, OpFailed, o);
    if w.deletion.Some? {
      OperationFrame(w.cat, w.deletion.value.job.op, OpFailed, o);
    }
  }

  lemma ReconcileTracks(w: World, o: Id, d: Id, s: Id)
    requires w.mode.Reconciling? && w.mode.todo != []
    ensures w.mode.at == AtSnapshot ==> KeepsReferences(w, SnapshotReconciled(w), o, d, s)
    ensures w.mode.at == AtSession ==> KeepsReferences(w, SessionReconciled(w), o, d, s)
    ensures w.mode.at == AtOperation ==> KeepsReferences(w, OperationReconciled(w), o, d, s)
  {
  }

  lemma StartupTracks(l: Lib, w: World, step: Step, o: Id, d: Id, s: Id)
    requires Enabled(l, w, step) && OfStartup(step)
    ensures KeepsReferences(w, Apply(l, w, step), o, d, s)
  {
    hide EnabledServing, StaleList, SnapshotReconciled, SessionReconciled, OperationReconciled, ApplyUpload;
    if w.mode.Reconciling? && w.mode.todo != [] {
      ReconcileTracks(w, o, d, s);
    }
  }

  lemma WorkerTracks(l: Lib, w: World, step: Step, o: Id, d: Id, s: Id)
    requires Enabled(l, w, step) && !OfUpload(step) && !OfStartup(step)
    requires !step.FinishJob? && !step.QueueSnapshot? && !step.QueueDataset?
    ensures KeepsReferences(w, Apply(l, w, step), o, d, s)
  {
    hide JobBegun, JobFailed, RowsInvalidated, ApplyUpload, ApplyStartup;
    hide CountCommittedDescendants, Acyclic, Targets, ObjectKeys, ListedJob, UploadingInto;
    if step.BeginJob? || step.CountDescendants? || step.FailJob? {
      JobTracks(w, o, d, s);
    } else if step.InvalidateRows? {
      InvalidateTracks(w, o, d, s);
    }
  }

  lemma InvalidateTracks(w: World, o: Id, d: Id, s: Id)
    requires w.deletion.Some? && w.deletion.value.at.Listed?
    ensures KeepsReferences(w, RowsInvalidated(w), o, d, s)
  {
    hide Targets;
  }

  lemma StepTracks(l: Lib, w: World, step: Step, o: Id, d: Id, s: Id)
    requires Inv(l, w) && Enabled(l, w, step) && Tracks(w, o, d, s)
    ensures Tracks(Apply(l, w, step), o, d, s)
  {
    hide CatalogOk, CommittedOk, LiveOk, WorkerOk, ModeOk, IssuedOk, CanStart, JobQueued;
    if step.StartUpload? {
      StartTracks(w, step.start, o, d, s);
    } else if step.FinishJob? {
      FinishTracks(l, w, o, d, s);
    } else if step.QueueSnapshot? {
      QueueTracks(w, step.op, w.cat.snapshots[step.s].dataset, Some(step.s), o, d, s);
    } else if step.QueueDataset? {
      QueueTracks(w, step.op, step.d, None, o, d, s);
    } else if OfUpload(step) {
      UploadTracks(l, w, step, o, d, s);
    } else if OfStartup(step) {
      StartupTracks(l, w, step, o, d, s);
    } else {
      WorkerTracks(l, w, step, o, d, s);
    }
  }

  lemma {:induction false} RunTracks(l: Lib, w: World, steps: seq<Step>, o: Id, d: Id, s: Id)
    requires Inv(l, w) && IsRun(l, w, steps) && Tracks(w, o, d, s)
    ensures Inv(l, After(l, w, steps)) && Tracks(After(l, w, steps), o, d, s)
    decreases |steps|
  {
    hide Inv, Enabled, Apply, Tracks;
    if steps != [] {
      StepTracks(l, w, steps[0], o, d, s);
      StepKeeps(l, w, steps[0]);
      RunTracks(l, Apply(l, w, steps[0]), steps[1..], o, d, s);
    }
  }

  // ---- what the job then changes ----

  /** Nothing outside snapshot s differs: not a row of another snapshot, dataset, session or operation, beyond
      this job's status and cleared references to s, and no object that is not one of the listed keys. */
  ghost predicate OnlySnapshot(a: Disk, b: Disk, s: Id, o: Id) {
    && b.cat.datasets == a.cat.datasets
    && (forall t :: t != s ==> (t in a.cat.snapshots <==> t in b.cat.snapshots))
    && (forall t :: t != s && t in a.cat.snapshots ==> b.cat.snapshots[t] == a.cat.snapshots[t])
    && (forall e :: e in a.cat.sessions && a.cat.sessions[e].snapshot != Some(s) ==>
          e in b.cat.sessions && b.cat.sessions[e] == a.cat.sessions[e])
    && (forall k :: k in a.cat.chunks && k.0 != s ==> k in b.cat.chunks && b.cat.chunks[k] == a.cat.chunks[k])
    && (forall p :: p in a.cat.operations && p != o ==>
          && p in b.cat.operations && b.cat.operations[p].status == a.cat.operations[p].status
          && b.cat.operations[p].dataset == a.cat.operations[p].dataset
          && b.cat.operations[p].snapshot in {a.cat.operations[p].snapshot, Unlink(a.cat.operations[p].snapshot, {s})})
    && (forall k :: k !in ObjectKeys(a.cat, {s}) ==>
          (k in a.store <==> k in b.store) && (k in a.store ==> b.store[k] == a.store[k]))
  }

  lemma StatusOnlySnapshot(c: Catalog, store: Objects, b: Disk, s: Id, o: Id, status: OperationStatus)
    requires OnlySnapshot(Disk(c, store), b, s, o)
    ensures OnlySnapshot(Disk(c, store), b.(cat := SetOperationStatus(b.cat, o, status)), s, o)
  {
    hide ObjectKeys;
  }

  lemma OnlyTransitive(a: Disk, b: Disk, c: Disk, s: Id, o: Id)
    requires OnlySnapshot(a, b, s, o) && OnlySnapshot(b, c, s, o)
    requires ObjectKeys(b.cat, {s}) <= ObjectKeys(a.cat, {s})
    ensures OnlySnapshot(a, c, s, o)
  {
    hide ObjectKeys;
  }

  lemma PurgeOnlySnapshot(c: Catalog, store: Objects, s: Id, o: Id)
    requires ChunkRowsOk(c.datasets, c.snapshots, c.sessions, c.chunks)
    ensures OnlySnapshot(Disk(c, store), Disk(Purge(c, {}, {s}, SessionsOf(c, s)), store), s, o)
  {
    hide ObjectKeys;
  }

  lemma InvalidateOnlySnapshot(c: Catalog, store: Objects, s: Id, o: Id)
    ensures OnlySnapshot(Disk(c, store), Disk(Invalidate(c, {s}), store - ObjectKeys(c, {s})), s, o)
  {
    hide ObjectKeys;
  }

  lemma SameOnlySnapshot(a: Disk, s: Id, o: Id)
    ensures OnlySnapshot(a, a, s, o)
  {
    hide ObjectKeys;
  }

  /** The snapshot branch stays inside its snapshot, whether it is refused, blocked or goes through. */
  lemma SnapshotBranch(disk: Disk, j: Job, s: Id)
    requires CatalogOk(disk.cat) && j.snapshot == Some(s)
    ensures OnlySnapshot(disk, Outcome(disk, j), s, j.op)
  {
    hide OnlySnapshot, ObjectKeys, SetOperationStatus, Purge, Blocked, CountCommittedDescendants, Invalidate;
    hide SnapshotRowsOk, SessionRowsOk, ChunkRowsOk, OperationRowsOk, UniqueOk, StatusOk, RefsOk, Acyclic, SessionsOf;
    var marked := SetOperationStatus(disk.cat, j.op, Running);
    SameOnlySnapshot(disk, s, j.op);
    StatusOnlySnapshot(disk.cat, disk.store, disk, s, j.op, Running);
    if Refused(disk.cat, j) {
      MarkTwice(disk.cat, j.op, Running, OpFailed);
      StatusOnlySnapshot(disk.cat, disk.store, disk, s, j.op, OpFailed);
    } else {
      SnapshotBranchTaken(disk, j, s);
    }
  }

  lemma SnapshotBranchTaken(disk: Disk, j: Job, s: Id)
    requires CatalogOk(disk.cat) && j.snapshot == Some(s)
    ensures var marked := SetOperationStatus(disk.cat, j.op, Running);
      OnlySnapshot(disk, Disk(FinishRows(Invalidate(marked, {s}), j), disk.store - ObjectKeys(disk.cat, {s})), s, j.op)
  {
    hide OnlySnapshot, ObjectKeys, SetOperationStatus, Purge, Blocked, Invalidate, SessionsOf;
    hide SnapshotRowsOk, SessionRowsOk, ChunkRowsOk, OperationRowsOk, UniqueOk, StatusOk, RefsOk, LinksOk;
    var marked := SetOperationStatus(disk.cat, j.op, Running);
    var rows := Invalidate(marked, {s});
    var left := disk.store - ObjectKeys(disk.cat, {s});
    var d1, d2 := Disk(marked, disk.store), Disk(rows, left);
    MarkingRows(disk.cat, j.op, Running);
    SameTargets(disk.cat, marked, j);
    SameOnlySnapshot(disk, s, j.op);
    StatusOnlySnapshot(disk.cat, disk.store, disk, s, j.op, Running);
    InvalidateOnlySnapshot(marked, disk.store, s, j.op);
    OnlyTransitive(disk, d1, d2, s, j.op);
    InvalidatedTargets(marked, j);
    RemoveSnapshotIsPurge(rows, s);
    SameOnlySnapshot(d2, s, j.op);
    if Blocked(rows, {s}, SessionsOf(rows, s)) {
      StatusOnlySnapshot(rows, left, d2, s, j.op, OpFailed);
      OnlyTransitive(disk, d2, Disk(SetOperationStatus(rows, j.op, OpFailed), left), s, j.op);
    } else {
      var d3 := Disk(Purge(rows, {}, {s}, SessionsOf(rows, s)), left);
      InvalidatedChunks(disk.cat, j.op, s);
      PurgeOnlySnapshot(rows, left, s, j.op);
      StatusOnlySnapshot(rows, left, d3, s, j.op, Succeeded);
      OnlyTransitive(disk, d2, d3.(cat := SetOperationStatus(d3.cat, j.op, Succeeded)), s, j.op);
    }
  }

  lemma InvalidatedChunks(c: Catalog, o: Id, s: Id)
    requires ChunkRowsOk(c.datasets, c.snapshots, c.sessions, c.chunks)
    ensures var rows := Invalidate(SetOperationStatus(c, o, Running), {s});
      ChunkRowsOk(rows.datasets, rows.snapshots, rows.sessions, rows.chunks)
  {
    MarkingRows(c, o, Running);
    hide SetOperationStatus;
  }

  /** The dataset branch removes the dataset, and with it every snapshot it holds. */
  lemma DatasetBranch(disk: Disk, j: Job, d: Id)
    requires CatalogOk(disk.cat) && j.snapshot.None? && j.dataset == Some(d)
    ensures var after := Outcome(disk, j).cat;
      && d !in after.datasets
      && forall t :: t in disk.cat.snapshots && disk.cat.snapshots[t].dataset == d ==> t !in after.snapshots
  {
    hide ObjectKeys, SetOperationStatus, Blocked, Removable;
    hide ChunkRowsOk, OperationRowsOk, UniqueOk, StatusOk, RefsOk, LinksOk;
    var marked := SetOperationStatus(disk.cat, j.op, Running);
    MarkingRows(disk.cat, j.op, Running);
    var rows := Invalidate(marked, Targets(marked, j));
    InvalidatedRows(disk.cat, marked, Targets(marked, j));
    DatasetRemovable(rows, d);
    assert !Blocked(rows, DatasetSnapshots(rows, d), DatasetSessions(rows, d)) by { Unblocked(rows, d); }
    MarkingRows(DeleteDataset(rows, d).value, j.op, Succeeded);
  }

  lemma Unblocked(c: Catalog, d: Id)
    requires Removable(c, {d}, DatasetSnapshots(c, d), DatasetSessions(c, d))
    ensures !Blocked(c, DatasetSnapshots(c, d), DatasetSessions(c, d))
  {
  }

  lemma InvalidatedRows(c: Catalog, marked: Catalog, gone: set<Id>)
    requires SnapshotRowsOk(c.datasets, c.snapshots) && SessionRowsOk(c.datasets, c.snapshots, c.sessions)
    requires marked.snapshots == c.snapshots && marked.datasets == c.datasets && marked.sessions == c.sessions
    ensures var rows := Invalidate(marked, gone);
      SnapshotRowsOk(rows.datasets, rows.snapshots) && SessionRowsOk(rows.datasets, rows.snapshots, rows.sessions)
  {
  }

  /** An operation queued for snapshot s of dataset d, run at any later point of any run: it changes nothing
      outside s, except exactly when the row of s is gone while d survives. Then its cleared reference sends it
      down the dataset branch, and d goes with everything in it. */
  lemma QueuedCleanupReach(l: Lib, w: World, steps: seq<Step>, o: Id, d: Id, s: Id, j: Job)
    requires Inv(l, w) && Tracks(w, o, d, s) && IsRun(l, w, steps)
    requires j.op == o && ListedJob(After(l, w, steps).cat, j)
    ensures var now := After(l, w, steps); var disk := Disk(now.cat, now.store);
      && Acyclic(ParentsOf(now.cat.snapshots))
      && (OnlySnapshot(disk, Outcome(disk, j), s, o) <==> !(s !in now.cat.snapshots && d in now.cat.datasets))
      && (s !in now.cat.snapshots && d in now.cat.datasets ==> d !in Outcome(disk, j).cat.datasets)
  {
    hide IsRun, After, OnlySnapshot, Outcome, CommittedOk, LiveOk, WorkerOk, ModeOk, IssuedOk;
    hide SnapshotRowsOk, SessionRowsOk, ChunkRowsOk, OperationRowsOk, UniqueOk, StatusOk, RefsOk, Acyclic;
    RunTracks(l, w, steps, o, d, s);
    var now := After(l, w, steps);
    var disk := Disk(now.cat, now.store);
    if s in now.cat.snapshots {
      SnapshotBranch(disk, j, s);
    } else if d in now.cat.datasets {
      DatasetBranch(disk, j, d);
      DatasetSeen(disk, Outcome(disk, j), d, s, o);
    } else {
      NothingLeft(disk, j, s);
    }
  }

  lemma DatasetSeen(a: Disk, b: Disk, d: Id, s: Id, o: Id)
    requires d in a.cat.datasets && d !in b.cat.datasets
    ensures !OnlySnapshot(a, b, s, o)
  {
  }

  lemma NothingLeft(disk: Disk, j: Job, s: Id)
    requires Acyclic(ParentsOf(disk.cat.snapshots)) && j.snapshot.None? && j.dataset.None?
    ensures OnlySnapshot(disk, Outcome(disk, j), s, j.op)
  {
    hide OnlySnapshot, Acyclic, SetOperationStatus;
    SameOnlySnapshot(disk, s, j.op);
    MarkTwice(disk.cat, j.op, Running, OpFailed);
    StatusOnlySnapshot(disk.cat, disk.store, disk, s, j.op, OpFailed);
  }

  /** Right after queueing, the operation tracks its snapshot and dataset. */
  lemma QueueingTracks(l: Lib, w: World, op: Id, s: Id)
    requires Inv(l, w) && w.mode == Serving && op !in w.issued && s in w.cat.snapshots
    ensures Tracks(JobQueued(w, op, w.cat.snapshots[s].dataset, Some(s)), op, w.cat.snapshots[s].dataset, s)
  {
    hide CommittedOk, LiveOk, WorkerOk, ModeOk;
    hide SessionRowsOk, ChunkRowsOk, OperationRowsOk, UniqueOk, StatusOk, RefsOk, LinksOk;
  }

  // ---- a crash between two jobs of one batch ----

  /** The job as the next run lists it. */
  function Relisted(c: Catalog, o: Id): Job
    requires o in c.operations
  {
    Job(o, c.operations[o].dataset, c.operations[o].snapshot)
  }

  /** Every operation is still there, its references cleared exactly where the rows are gone. */
  ghost predicate ReferencesFollow(a: Catalog, b: Catalog) {
    forall o :: o in a.operations ==>
      && o in b.operations && b.operations[o].kind == a.operations[o].kind
      && (a.operations[o].snapshot.Some? && a.operations[o].snapshot.value in a.snapshots ==>
            b.operations[o].snapshot ==
              if a.operations[o].snapshot.value in b.snapshots then a.operations[o].snapshot else None)
      && (a.operations[o].snapshot.None? ==> b.operations[o].snapshot.None?)
      && (a.operations[o].dataset.Some? && a.operations[o].dataset.value in a.datasets ==>
            b.operations[o].dataset ==
              if a.operations[o].dataset.value in b.datasets then a.operations[o].dataset else None)
      && (a.operations[o].dataset.None? ==> b.operations[o].dataset.None?)
  }

  lemma PurgeFollows(a: Catalog, c: Catalog, d: set<Id>, s: set<Id>, e: set<Id>)
    requires ReferencesFollow(a, c) && c.snapshots.Keys == a.snapshots.Keys && c.datasets == a.datasets
    ensures ReferencesFollow(a, Purge(c, d, s, e))
  {
  }

  lemma StatusFollows(a: Catalog, c: Catalog, o: Id, status: OperationStatus)
    requires ReferencesFollow(a, c)
    ensures ReferencesFollow(a, SetOperationStatus(c, o, status))
  {
  }

  lemma SameFollows(a: Catalog)
    ensures ReferencesFollow(a, a)
  {
  }

  /** The rows once they are marked: the references are as before. */
  lemma MarkedFollows(a: Catalog, j: Job)
    ensures var c := Invalidate(SetOperationStatus(a, j.op, Running), Targets(a, j));
      ReferencesFollow(a, c) && c.snapshots.Keys == a.snapshots.Keys && c.datasets == a.datasets
  {
    hide ReferencesFollow, Targets, SetOperationStatus;
    SameFollows(a);
    MarkingRows(a, j.op, Running);
    StatusFollows(a, a, j.op, Running);
    InvalidateFollows(a, SetOperationStatus(a, j.op, Running), Targets(a, j));
  }

  lemma InvalidateFollows(a: Catalog, c: Catalog, gone: set<Id>)
    requires ReferencesFollow(a, c)
    ensures ReferencesFollow(a, Invalidate(c, gone))
  {
  }

  lemma OutcomeFollows(disk: Disk, j: Job)
    requires CatalogOk(disk.cat)
    ensures ReferencesFollow(disk.cat, Outcome(disk, j).cat)
  {
    hide ReferencesFollow, SetOperationStatus, Purge, Blocked, Invalidate, Targets, SessionsOf, ObjectKeys, Acyclic;
    hide SnapshotRowsOk, SessionRowsOk, ChunkRowsOk, OperationRowsOk, UniqueOk, StatusOk, RefsOk;
    hide DatasetSnapshots, DatasetSessions;
    var a := disk.cat;
    var marked := SetOperationStatus(a, j.op, Running);
    SameFollows(a);
    if Refused(a, j) {
      MarkTwice(a, j.op, Running, OpFailed);
      StatusFollows(a, a, j.op, OpFailed);
    } else {
      MarkingRows(a, j.op, Running);
      SameTargets(a, marked, j);
      MarkedFollows(a, j);
      var c := Invalidate(marked, Targets(marked, j));
      StatusFollows(a, c, j.op, OpFailed);
      if j.snapshot.Some? {
        var s := j.snapshot.value;
        RemoveSnapshotIsPurge(c, s);
        PurgeFollows(a, c, {}, {s}, SessionsOf(c, s));
        StatusFollows(a, Purge(c, {}, {s}, SessionsOf(c, s)), j.op, Succeeded);
      } else {
        var d := j.dataset.value;
        PurgeFollows(a, c, {d}, DatasetSnapshots(c, d), DatasetSessions(c, d));
        StatusFollows(a, Purge(c, {d}, DatasetSnapshots(c, d), DatasetSessions(c, d)), j.op, Succeeded);
      }
    }
  }

  /** A job whose rows are already gone succeeds and removes nothing. */
  lemma GoneJobSucceeds(disk: Disk, j: Job)
    requires CatalogOk(disk.cat) && (j.snapshot.Some? || j.dataset.Some?)
    requires j.snapshot.Some? ==> j.snapshot.value !in disk.cat.snapshots
    requires j.snapshot.None? ==> j.dataset.value !in disk.cat.datasets
    ensures Outcome(disk, j).cat.datasets == disk.cat.datasets
    ensures Outcome(disk, j).store == disk.store
    ensures j.op in disk.cat.operations ==>
      j.op in Outcome(disk, j).cat.operations && Outcome(disk, j).cat.operations[j.op].status == Succeeded
  {
    hide SnapshotRowsOk, SessionRowsOk, ChunkRowsOk, OperationRowsOk, UniqueOk, StatusOk, RefsOk, Acyclic;
    hide SetOperationStatus, Invalidate, FinishRows, Targets, ObjectKeys, CommittedChildren, CountRounds;
    var marked := SetOperationStatus(disk.cat, j.op, Running);
    MarkingRows(disk.cat, j.op, Running);
    OperationFrame(disk.cat, j.op, Running, j.op);
    SameTargets(disk.cat, marked, j);
    var rows := Invalidate(marked, Targets(marked, j));
    if j.snapshot.Some? {
      NoChildren(disk.cat, j.snapshot.value);
      GoneRows(disk.cat, j);
      GoneSnapshot(rows, j);
    } else {
      GoneRows(disk.cat, j);
      GoneDataset(rows, j);
    }
  }

  lemma NoChildren(c: Catalog, s: Id)
    requires CatalogOk(c) && s !in c.snapshots
    ensures CountCommittedDescendants(c.snapshots, s) == 0
  {
    hide SessionRowsOk, ChunkRowsOk, OperationRowsOk, UniqueOk, StatusOk, RefsOk, Acyclic;
    assert CommittedChildren(c.snapshots, {s}) == {};
  }

  /** Nothing refers to rows that are gone, so marking and listing them finds nothing. */
  lemma GoneRows(c: Catalog, j: Job)
    requires CatalogOk(c) && (j.snapshot.Some? || j.dataset.Some?)
    requires j.snapshot.Some? ==> j.snapshot.value !in c.snapshots
    requires j.snapshot.None? ==> j.dataset.value !in c.datasets
    ensures ObjectKeys(c, Targets(c, j)) == {}
    ensures var m := SetOperationStatus(c, j.op, Running); Invalidate(m, Targets(m, j)) == m
  {
    hide OperationRowsOk, UniqueOk, StatusOk, RefsOk, LinksOk;
    MarkingRows(c, j.op, Running);
    var m := SetOperationStatus(c, j.op, Running);
    hide SetOperationStatus;
    assert forall s :: s in c.snapshots ==> s !in Targets(c, j);
    assert Invalidate(m, Targets(m, j)).snapshots == m.snapshots;
  }

  lemma GoneSnapshot(c: Catalog, j: Job)
    requires SnapshotRowsOk(c.datasets, c.snapshots) && SessionRowsOk(c.datasets, c.snapshots, c.sessions)
    requires j.snapshot.Some? && j.snapshot.value !in c.snapshots
    ensures FinishRows(c, j).datasets == c.datasets
    ensures j.op in c.operations ==>
      j.op in FinishRows(c, j).operations && FinishRows(c, j).operations[j.op].status == Succeeded
  {
    hide Blocked, RemoveSnapshot, SetOperationStatus;
    var s := j.snapshot.value;
    RemoveSnapshotIsPurge(c, s);
    assert !Blocked(c, {s}, SessionsOf(c, s)) by { Unreferenced(c, s); }
    Succeeds(Purge(c, {}, {s}, SessionsOf(c, s)), j.op);
  }

  lemma Unreferenced(c: Catalog, s: Id)
    requires SnapshotRowsOk(c.datasets, c.snapshots) && SessionRowsOk(c.datasets, c.snapshots, c.sessions)
    requires s !in c.snapshots
    ensures !Blocked(c, {s}, SessionsOf(c, s))
  {
  }

  lemma GoneDataset(c: Catalog, j: Job)
    requires SnapshotRowsOk(c.datasets, c.snapshots) && SessionRowsOk(c.datasets, c.snapshots, c.sessions)
    requires j.snapshot.None? && j.dataset.Some? && j.dataset.value !in c.datasets
    ensures FinishRows(c, j).datasets == c.datasets
    ensures j.op in c.operations ==>
      j.op in FinishRows(c, j).operations && FinishRows(c, j).operations[j.op].status == Succeeded
  {
    hide Purge, SetOperationStatus;
    var d := j.dataset.value;
    assert DatasetSnapshots(c, d) == {} && DatasetSessions(c, d) == {};
    NothingPurged(c, d, j.op);
    Succeeds(Purge(c, {d}, {}, {}), j.op);
  }

  lemma NothingPurged(c: Catalog, d: Id, o: Id)
    requires d !in c.datasets
    ensures Purge(c, {d}, {}, {}).datasets == c.datasets
    ensures o in c.operations ==> o in Purge(c, {d}, {}, {}).operations
  {
  }

  lemma Succeeds(c: Catalog, o: Id)
    ensures SetOperationStatus(c, o, Succeeded).datasets == c.datasets
    ensures o in c.operations ==>
      o in SetOperationStatus(c, o, Succeeded).operations
      && SetOperationStatus(c, o, Succeeded).operations[o].status == Succeeded
  {
  }
}
