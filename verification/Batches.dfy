/** Several cleanup operations in one batch (internal/deletion/worker.go): the worker lists its jobs once and then
    runs them one by one, so what a job refers to may be stale by the time it runs. */
module Batches {
  import opened Base
  import opened Manifests
  import opened Catalogs
  import opened Lineage
  import opened Streams
  import opened Machine
  import opened Invariant
  import opened SafetyPurge
  import opened SafetyEnd
  import opened SafetyWorker
  import opened Deletions
  import opened Cleanups
  import opened Deleters
  import opened Footprints

  function Ids(j: Job): set<Id> {
    (if j.dataset.Some? then {j.dataset.value} else {}) + (if j.snapshot.Some? then {j.snapshot.value} else {})
  }

  /** A world at rest around a catalog, with every row's identifier issued, and the job's. */
  ghost function AtRest(c: Catalog, j: Job): World {
    INITIAL.(cat := c, issued := c.datasets.Keys + c.snapshots.Keys + Ids(j))
  }

  /** A job as the worker holds it: it was listed once, and what it refers to may be gone by now. */
  ghost predicate OnceListed(c: Catalog, j: Job) {
    j.op in c.operations && c.operations[j.op].kind == CleanupOp && JobRefs(c, j)
  }

  lemma ListedOnce(c: Catalog, j: Job)
    requires CatalogOk(c) && ListedJob(c, j)
    ensures OnceListed(c, j)
  {
    hide SessionRowsOk, ChunkRowsOk, UniqueOk, StatusOk, RefsOk, LinksOk, SnapshotRowsOk;
  }

  lemma OnceListedOk(c: Catalog, j: Job)
    requires OnceListed(c, j)
    ensures JobOk(AtRest(c, j), j)
  {
  }

  lemma MarkedOnce(c: Catalog, j: Job)
    requires OnceListed(c, j)
    ensures OnceListed(SetOperationStatus(c, j.op, Running), j)
  {
  }

  lemma FinishCatalog(c: Catalog, j: Job)
    requires CatalogOk(c)
    ensures CatalogOk(FinishRows(c, j))
  {
    hide CatalogOk, Purge, Blocked, Removable, SetOperationStatus;
    OperationCatalog(c, j.op, OpFailed);
    if j.snapshot.Some? {
      var s := j.snapshot.value;
      RemoveSnapshotIsPurge(c, s);
      if !Blocked(c, {s}, SessionsOf(c, s)) {
        SnapshotRemovable(c, s, SessionsOf(c, s));
        PurgeCatalog(c, {}, {s}, SessionsOf(c, s));
        OperationCatalog(Purge(c, {}, {s}, SessionsOf(c, s)), j.op, Succeeded);
      }
    } else if j.dataset.Some? {
      var d := j.dataset.value;
      DatasetDeletable(c, d);
      PurgeCatalog(c, {d}, DatasetSnapshots(c, d), DatasetSessions(c, d));
      OperationCatalog(Purge(c, {d}, DatasetSnapshots(c, d), DatasetSessions(c, d)), j.op, Succeeded);
    }
  }

  /** A whole job keeps the catalog consistent. */
  lemma OutcomeCatalog(disk: Disk, j: Job)
    requires CatalogOk(disk.cat) && OnceListed(disk.cat, j)
    ensures CatalogOk(Outcome(disk, j).cat)
  {
    hide SnapshotRowsOk, SessionRowsOk, ChunkRowsOk, UniqueOk, OperationRowsOk, StatusOk, RefsOk, Acyclic;
    hide SetOperationStatus, Invalidate, FinishRows, Targets, ObjectKeys, CountCommittedDescendants, JobOk, ChildlessOk;
    hide OnceListed;
    var marked := SetOperationStatus(disk.cat, j.op, Running);
    OperationCatalog(disk.cat, j.op, Running);
    OperationCatalog(marked, j.op, OpFailed);
    if !Refused(disk.cat, j) {
      MarkedCatalog(disk, j);
      FinishCatalog(Invalidate(marked, Targets(marked, j)), j);
    }
  }

  /** So do its rows once they are marked. */
  lemma MarkedCatalog(disk: Disk, j: Job)
    requires CatalogOk(disk.cat) && OnceListed(disk.cat, j) && !Refused(disk.cat, j)
    ensures var marked := SetOperationStatus(disk.cat, j.op, Running); CatalogOk(Invalidate(marked, Targets(marked, j)))
  {
    hide SnapshotRowsOk, SessionRowsOk, ChunkRowsOk, UniqueOk, OperationRowsOk, StatusOk, RefsOk, Acyclic;
    hide SetOperationStatus, Invalidate, Targets, CountCommittedDescendants, JobOk, ChildlessOk, OnceListed;
    var marked := SetOperationStatus(disk.cat, j.op, Running);
    OperationCatalog(disk.cat, j.op, Running);
    MarkingRows(disk.cat, j.op, Running);
    MarkedOnce(disk.cat, j);
    OnceListedOk(marked, j);
    JobInDataset(marked, j);
    CountZero(marked, j);
    InvalidateCatalog(AtRest(marked, j), j);
  }

  lemma JobInDataset(c: Catalog, j: Job)
    requires JobOk(AtRest(c, j), j) && (j.snapshot.Some? || j.dataset.Some?)
    ensures j.dataset.Some?
  {
  }

  // ---- a crash between two jobs of one batch ----

  /** The rows a job refers to are all still there. */
  ghost predicate RowsRemain(c: Catalog, j: Job) {
    (j.snapshot.Some? ==> j.snapshot.value in c.snapshots) && (j.dataset.Some? ==> j.dataset.value in c.datasets)
  }

  lemma RelistedSame(a: Catalog, b: Catalog, j: Job)
    requires CatalogOk(a) && CatalogOk(b) && ListedJob(a, j) && ReferencesFollow(a, b)
    ensures j.op in b.operations
    ensures RowsRemain(b, j) ==> Relisted(b, j.op) == j
    ensures j.snapshot.Some? && j.snapshot.value !in b.snapshots ==> Relisted(b, j.op).snapshot == None
    ensures j.snapshot.None? ==> Relisted(b, j.op).snapshot == None
    ensures j.dataset.Some? ==>
      Relisted(b, j.op).dataset == if j.dataset.value in b.datasets then j.dataset else None
    ensures j.snapshot.Some? ==> j.dataset.Some?
    ensures j.snapshot.Some? && j.snapshot.value in b.snapshots ==> j.dataset.value in b.datasets
  {
    hide SessionRowsOk, ChunkRowsOk, UniqueOk, StatusOk, RefsOk, LinksOk;
  }

  lemma LastStatus(disk: Disk, j: Job)
    requires CatalogOk(disk.cat) && j.snapshot.None? && j.dataset.None? && j.op in disk.cat.operations
    ensures j.op in Outcome(disk, j).cat.operations && Outcome(disk, j).cat.operations[j.op].status == OpFailed
  {
    hide SnapshotRowsOk, SessionRowsOk, ChunkRowsOk, UniqueOk, OperationRowsOk, StatusOk, RefsOk, Acyclic;
  }

  /** Running a stale job is not the same as running it relisted when its rows are gone: the stale job finds
      nothing and succeeds, the relisted one fails or takes the dataset branch. */
  lemma StaleDiffers(disk: Disk, j: Job, k: Job)
    requires CatalogOk(disk.cat) && j.op in disk.cat.operations && k.op == j.op && k.snapshot.None?
    requires j.snapshot.Some? || j.dataset.Some?
    requires j.snapshot.Some? ==> j.snapshot.value !in disk.cat.snapshots
    requires j.snapshot.None? ==> j.dataset.value !in disk.cat.datasets
    requires k.dataset.Some? ==> k.dataset.value in disk.cat.datasets
    ensures Outcome(disk, j) != Outcome(disk, k)
  {
    hide SnapshotRowsOk, SessionRowsOk, ChunkRowsOk, UniqueOk, OperationRowsOk, StatusOk, RefsOk, Acyclic, Outcome;
    GoneJobSucceeds(disk, j);
    if k.dataset.Some? {
      DatasetBranch(disk, k, k.dataset.value);
    } else {
      LastStatus(disk, k);
    }
  }

  lemma RelistedOp(c: Catalog, o: Id)
    requires o in c.operations
    ensures Relisted(c, o).op == o
  {
  }

  /** The case that matters: two operations on one snapshot, the first going through. After a crash between them
      the second takes the whole dataset, and every snapshot still in it, although it was queued for one. */
  lemma SecondCleanupTakesDataset(disk: Disk, first: Job, second: Job, s: Id, d: Id)
    requires CatalogOk(disk.cat) && ListedJob(disk.cat, first) && ListedJob(disk.cat, second)
    requires first.snapshot == Some(s) && second.snapshot == Some(s) && second.dataset == Some(d)
    requires s !in Outcome(disk, first).cat.snapshots
    ensures var between := Outcome(disk, first);
      && CatalogOk(between.cat) && second.op in between.cat.operations
      && d in between.cat.datasets
      && d !in Outcome(between, Relisted(between.cat, second.op)).cat.datasets
      && d in Outcome(between, second).cat.datasets
  {
    hide SnapshotRowsOk, SessionRowsOk, ChunkRowsOk, UniqueOk, OperationRowsOk, StatusOk, RefsOk, Acyclic, Outcome;
    hide ReferencesFollow, ListedJob, Relisted, OnceListed;
    ListedOnce(disk.cat, first);
    OutcomeCatalog(disk, first);
    OutcomeFollows(disk, first);
    var between := Outcome(disk, first);
    RelistedSame(disk.cat, between.cat, second);
    assert d in disk.cat.datasets by { ListedDataset(disk.cat, second); }
    SnapshotJobKeepsDatasets(disk, first);
    DatasetBranch(between, Relisted(between.cat, second.op), d);
    GoneJobSucceeds(between, second);
  }

  lemma ListedDataset(c: Catalog, j: Job)
    requires CatalogOk(c) && ListedJob(c, j)
    ensures j.dataset.Some? ==> j.dataset.value in c.datasets
  {
    hide SnapshotRowsOk, SessionRowsOk, ChunkRowsOk, UniqueOk, StatusOk, RefsOk, LinksOk;
  }

  lemma SnapshotJobKeepsDatasets(disk: Disk, j: Job)
    requires CatalogOk(disk.cat) && j.snapshot.Some?
    ensures Outcome(disk, j).cat.datasets == disk.cat.datasets
  {
    hide CatalogOk, Outcome;
    SnapshotBranch(disk, j, j.snapshot.value);
  }

  // ---- what a job leaves of the other operations ----

  /** Only this operation's row has a new status. */
  ghost predicate StatusesStay(a: Catalog, b: Catalog, o: Id) {
    forall p :: p in a.operations && p != o ==>
      p in b.operations && b.operations[p].status == a.operations[p].status && b.operations[p].kind == a.operations[p].kind
  }

  lemma StatusStays(a: Catalog, b: Catalog, o: Id, status: OperationStatus)
    requires StatusesStay(a, b, o)
    ensures StatusesStay(a, SetOperationStatus(b, o, status), o)
  {
  }

  lemma PurgeStays(a: Catalog, b: Catalog, o: Id, d: set<Id>, s: set<Id>, e: set<Id>)
    requires StatusesStay(a, b, o)
    ensures StatusesStay(a, Purge(b, d, s, e), o)
  {
  }

  lemma OutcomeStays(disk: Disk, j: Job)
    requires Acyclic(ParentsOf(disk.cat.snapshots))
    ensures StatusesStay(disk.cat, Outcome(disk, j).cat, j.op)
  {
    hide StatusesStay, SetOperationStatus, Purge, Blocked, Targets, ObjectKeys, Acyclic, Refused, Invalidate;
    hide DatasetSnapshots, DatasetSessions, SessionsOf;
    var a := disk.cat;
    SelfStays(a, j.op);
    StatusStays(a, a, j.op, Running);
    var marked := SetOperationStatus(a, j.op, Running);
    StatusStays(a, marked, j.op, OpFailed);
    if !Refused(a, j) {
      var c := Invalidate(marked, Targets(marked, j));
      assert StatusesStay(a, c, j.op) by { MarkedStays(a, marked, Targets(marked, j), j.op); }
      StatusStays(a, c, j.op, OpFailed);
      if j.snapshot.Some? {
        var s := j.snapshot.value;
        RemoveSnapshotIsPurge(c, s);
        PurgeStays(a, c, j.op, {}, {s}, SessionsOf(c, s));
        StatusStays(a, Purge(c, {}, {s}, SessionsOf(c, s)), j.op, Succeeded);
      } else if j.dataset.Some? {
        var d := j.dataset.value;
        PurgeStays(a, c, j.op, {d}, DatasetSnapshots(c, d), DatasetSessions(c, d));
        StatusStays(a, Purge(c, {d}, DatasetSnapshots(c, d), DatasetSessions(c, d)), j.op, Succeeded);
      }
    }
  }

  lemma SelfStays(a: Catalog, o: Id)
    ensures StatusesStay(a, a, o)
  {
  }

  lemma MarkedStays(a: Catalog, b: Catalog, gone: set<Id>, o: Id)
    requires StatusesStay(a, b, o)
    ensures StatusesStay(a, Invalidate(b, gone), o)
  {
  }

  /** Another operation that was listed is listed again, with what is left of its references. */
  lemma StaysQueued(disk: Disk, j: Job, k: Job)
    requires CatalogOk(disk.cat) && ListedJob(disk.cat, k) && k.op != j.op
    ensures k.op in Outcome(disk, j).cat.operations && ListedJob(Outcome(disk, j).cat, Relisted(Outcome(disk, j).cat, k.op))
  {
    hide CatalogOk, Outcome;
    CatalogAcyclic(disk.cat);
    OutcomeStays(disk, j);
  }

  lemma CatalogAcyclic(c: Catalog)
    requires CatalogOk(c)
    ensures Acyclic(ParentsOf(c.snapshots))
  {
    hide SnapshotRowsOk, SessionRowsOk, ChunkRowsOk, UniqueOk, OperationRowsOk, StatusOk, RefsOk, Acyclic;
  }

  // ---- foreign keys without an ON DELETE action ----

  lemma SameReferences(c: Catalog, o: Id, s: Id)
    ensures var rows := Invalidate(SetOperationStatus(c, o, Running), {s});
      && SessionsOf(rows, s) == SessionsOf(c, s)
      && (Blocked(rows, {s}, SessionsOf(rows, s)) <==> Blocked(c, {s}, SessionsOf(c, s)))
  {
    MarkingRows(c, o, Running);
    var rows := Invalidate(SetOperationStatus(c, o, Running), {s});
    hide SetOperationStatus;
    assert SessionsOf(rows, s) == SessionsOf(c, s);
    if t :| t in c.snapshots && t !in {s} && c.snapshots[t].parent == Some(s) {
      assert t in rows.snapshots && rows.snapshots[t].parent == Some(s) && rows.snapshots[t].parent.value in {s};
    }
    if e :| e in c.sessions && e !in SessionsOf(c, s) && c.sessions[e].base == Some(s) {
      assert rows.sessions[e].base == Some(s) && rows.sessions[e].base.value in {s};
    }
  }

  /** A snapshot deletion that passed the descendant count completes if and only if no other snapshot row of any
      status has it as parent and no session of another snapshot has it as base, such as one of a failed
      incremental upload. Otherwise its objects are gone, its row stays behind marked as deleting, and the
      operation has failed. */
  lemma DeletionCompletes(disk: Disk, j: Job, s: Id)
    requires CatalogOk(disk.cat) && j.snapshot == Some(s) && s in disk.cat.snapshots && j.op in disk.cat.operations
    requires !Refused(disk.cat, j)
    ensures var after := Outcome(disk, j);
      && (s !in after.cat.snapshots <==> !Blocked(disk.cat, {s}, SessionsOf(disk.cat, s)))
      && (forall k :: k in ObjectKeys(disk.cat, {s}) ==> k !in after.store)
      && (s in after.cat.snapshots ==>
            && after.cat.snapshots[s].status == Deleting
            && j.op in after.cat.operations && after.cat.operations[j.op].status == OpFailed)
  {
    hide SnapshotRowsOk, SessionRowsOk, ChunkRowsOk, UniqueOk, OperationRowsOk, StatusOk, RefsOk, Acyclic;
    hide SetOperationStatus, ObjectKeys, Refused, Blocked, SessionsOf, RemoveSnapshot;
    var marked := SetOperationStatus(disk.cat, j.op, Running);
    var rows := Invalidate(marked, {s});
    MarkingRows(disk.cat, j.op, Running);
    SameReferences(disk.cat, j.op, s);
    RemoveSnapshotIsPurge(rows, s);
    if Blocked(rows, {s}, SessionsOf(rows, s)) {
      MarkingRows(rows, j.op, OpFailed);
      StatusIs(disk.cat, j.op, Running);
      StatusIs(rows, j.op, OpFailed);
    } else {
      MarkingRows(Purge(rows, {}, {s}, SessionsOf(rows, s)), j.op, Succeeded);
    }
  }

  lemma StatusIs(c: Catalog, o: Id, status: OperationStatus)
    requires o in c.operations
    ensures o in SetOperationStatus(c, o, status).operations && SetOperationStatus(c, o, status).operations[o].status == status
  {
  }
}
