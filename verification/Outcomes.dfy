/** What a cleanup job leaves, row by row and object by object (internal/deletion/deletion.go, with the cascades of
    migrations/000001_initial.sql). */
module Outcomes {
  import opened Base
  import opened Manifests
  import opened Catalogs
  import opened Lineage
  import opened Streams
  import opened Machine
  import opened Invariant
  import opened SafetyPurge
  import opened SafetyWorker
  import opened Deletions
  import opened Deleters
  import opened Footprints
  import opened Batches
  import opened BatchResumption

  /** The snapshots and sessions a job is about: one snapshot and its session, or all of a dataset's. */
  ghost predicate IsTarget(c: Catalog, j: Job, s: Id) {
    s in c.snapshots && if j.snapshot.Some? then j.snapshot == Some(s) else j.dataset == Some(c.snapshots[s].dataset)
  }

  ghost predicate IsTargetSession(c: Catalog, j: Job, e: Id) {
    e in c.sessions && if j.snapshot.Some? then c.sessions[e].snapshot == j.snapshot
                       else j.dataset == Some(c.sessions[e].dataset)
  }

  ghost predicate IsTargetDataset(j: Job, d: Id) {
    j.snapshot.None? && j.dataset == Some(d)
  }

  /** A chunk row of a target has this key, or a target has noted it as its manifest's. */
  ghost predicate NamedByTarget(c: Catalog, j: Job, k: Key) {
    ChunkOfTarget(c, j, k) || ManifestOfTarget(c, j, k)
  }

  ghost predicate ChunkOfTarget(c: Catalog, j: Job, k: Key) {
    exists s: Id, i: nat :: IsTarget(c, j, s) && (s, i) in c.chunks && c.chunks[(s, i)].key == k
  }

  ghost predicate ManifestOfTarget(c: Catalog, j: Job, k: Key) {
    exists s :: IsTarget(c, j, s) && c.snapshots[s].manifestKey == Some(k)
  }

  /** Another snapshot has the target as its parent, or a session of another snapshot has it as its base. */
  ghost predicate StillNeeded(c: Catalog, j: Job) {
    j.snapshot.Some? &&
    (|| (exists t :: t in c.snapshots && Some(t) != j.snapshot && c.snapshots[t].parent == j.snapshot)
     || (exists e :: e in c.sessions && c.sessions[e].snapshot != j.snapshot && c.sessions[e].base == j.snapshot))
  }

  // ---- the three endings ----

  /** Refused: the operation has failed, and no other row differs. */
  ghost predicate OnlyFailed(a: Catalog, b: Catalog, j: Job) {
    && b.datasets == a.datasets && b.snapshots == a.snapshots && b.sessions == a.sessions && b.chunks == a.chunks
    && OneStatus(a, b, j.op, OpFailed)
  }

  ghost predicate OneStatus(a: Catalog, b: Catalog, o: Id, status: OperationStatus) {
    forall p ::
      && (p in b.operations <==> p in a.operations)
      && (p in a.operations ==>
            b.operations[p] == if p == o then a.operations[p].(status := status) else a.operations[p])
  }

  /** Stopped by a foreign key: the operation has failed, the targets are marked as deleting, no other row differs. */
  ghost predicate OnlyMarked(a: Catalog, b: Catalog, j: Job) {
    && b.datasets == a.datasets && b.sessions == a.sessions && b.chunks == a.chunks && OneStatus(a, b, j.op, OpFailed)
    && (forall s ::
          && (s in b.snapshots <==> s in a.snapshots)
          && (s in a.snapshots ==>
                b.snapshots[s] == if IsTarget(a, j, s) then a.snapshots[s].(status := Deleting) else a.snapshots[s]))
  }

  /** Gone through: the targets' rows are gone with their sessions and chunk rows, and the dataset's in a dataset
      deletion; every other row is as it was. */
  ghost predicate RowsGone(a: Catalog, b: Catalog, j: Job) {
    DatasetsLeft(a, b, j) && SnapshotsLeft(a, b, j) && SessionsLeft(a, b, j) && ChunksLeft(a, b, j)
  }

  ghost predicate DatasetsLeft(a: Catalog, b: Catalog, j: Job) {
    forall d :: (d in b.datasets <==> d in a.datasets && !IsTargetDataset(j, d))
                && (d in b.datasets ==> b.datasets[d] == a.datasets[d])
  }

  ghost predicate SnapshotsLeft(a: Catalog, b: Catalog, j: Job) {
    forall s :: (s in b.snapshots <==> s in a.snapshots && !IsTarget(a, j, s))
                && (s in b.snapshots ==> b.snapshots[s] == a.snapshots[s])
  }

  ghost predicate SessionsLeft(a: Catalog, b: Catalog, j: Job) {
    forall e :: (e in b.sessions <==> e in a.sessions && !IsTargetSession(a, j, e))
                && (e in b.sessions ==> b.sessions[e] == a.sessions[e])
  }

  ghost predicate ChunksLeft(a: Catalog, b: Catalog, j: Job) {
    forall k :: (k in b.chunks <==> k in a.chunks && !IsTarget(a, j, k.0))
                && (k in b.chunks ==> b.chunks[k] == a.chunks[k])
  }

  /** An operation's references, those to rows that go cleared. */
  ghost function Cleared(c: Catalog, j: Job, p: Operation): Operation {
    Operation(p.kind, p.status,
              if p.dataset.Some? && IsTargetDataset(j, p.dataset.value) then None else p.dataset,
              if p.snapshot.Some? && IsTarget(c, j, p.snapshot.value) then None else p.snapshot,
              if p.session.Some? && IsTargetSession(c, j, p.session.value) then None else p.session)
  }

  /** The job's operation has succeeded, and references of operations to rows that are gone are cleared; nothing else
      of the operations changes. */
  ghost predicate OperationsFollow(a: Catalog, b: Catalog, j: Job) {
    forall o ::
      && (o in b.operations <==> o in a.operations)
      && (o in a.operations ==>
            b.operations[o] == Cleared(a, j, if o == j.op then a.operations[o].(status := Succeeded) else a.operations[o]))
  }

  /** The objects the targets named are gone, and no others. */
  ghost predicate ObjectsGone(c: Catalog, j: Job, a: Objects, b: Objects) {
    forall k :: (k in b <==> k in a && !NamedByTarget(c, j, k)) && (k in b ==> b[k] == a[k])
  }

  lemma ChunkKeysNamed(c: Catalog, j: Job, k: Key)
    requires ChunkRowsOk(c.datasets, c.snapshots, c.sessions, c.chunks) && (j.snapshot.Some? || j.dataset.Some?)
    ensures (exists r :: r in c.chunks && r.0 in Targets(c, j) && c.chunks[r].key == k) <==> ChunkOfTarget(c, j, k)
  {
    if s: Id, i: nat :| IsTarget(c, j, s) && (s, i) in c.chunks && c.chunks[(s, i)].key == k {
      assert (s, i) in c.chunks && (s, i).0 in Targets(c, j);
    }
    if r :| r in c.chunks && r.0 in Targets(c, j) && c.chunks[r].key == k {
      assert (r.0, r.1) == r && IsTarget(c, j, r.0);
    }
  }

  lemma ManifestKeysNamed(c: Catalog, j: Job, k: Key)
    requires j.snapshot.Some? || j.dataset.Some?
    ensures k in ManifestKeys(c, Targets(c, j)) <==> ManifestOfTarget(c, j, k)
  {
    if s :| IsTarget(c, j, s) && c.snapshots[s].manifestKey == Some(k) {
      assert s in Targets(c, j);
    }
  }

  lemma ObjectKeysNamed(c: Catalog, j: Job, k: Key)
    requires CatalogOk(c) && (j.snapshot.Some? || j.dataset.Some?)
    ensures k in ObjectKeys(c, Targets(c, j)) <==> NamedByTarget(c, j, k)
  {
    hide SnapshotRowsOk, OperationRowsOk, UniqueOk, StatusOk, RefsOk, LinksOk, SessionRowsOk, ChunkRowsOk;
    hide Targets, ManifestKeys, ChunkOfTarget, ManifestOfTarget;
    ChunkKeysNamed(c, j, k);
    ManifestKeysNamed(c, j, k);
  }

  lemma NeededBlocks(c: Catalog, j: Job)
    requires CatalogOk(c) && j.snapshot.Some?
    ensures var s := j.snapshot.value; Blocked(c, {s}, SessionsOf(c, s)) <==> StillNeeded(c, j)
  {
    hide CatalogOk;
    var s := j.snapshot.value;
    assert forall e :: e in c.sessions ==> (e !in SessionsOf(c, s) <==> c.sessions[e].snapshot != j.snapshot);
  }

  // ---- rows that go ----

  /** What a removal takes: the targets, their sessions, and the dataset in a dataset deletion. */
  ghost predicate Takes(c: Catalog, j: Job, d: set<Id>, s: set<Id>, e: set<Id>) {
    && (forall x :: x in d <==> IsTargetDataset(j, x))
    && (forall x :: x in c.snapshots ==> (x in s <==> IsTarget(c, j, x)))
    && (forall x :: x in c.sessions ==> (x in e <==> IsTargetSession(c, j, x)))
  }

  lemma JobTakes(c: Catalog, j: Job)
    requires j.dataset.Some?
    ensures j.snapshot.Some? ==> var s := j.snapshot.value; Takes(c, j, {}, {s}, SessionsOf(c, s))
    ensures j.snapshot.None? ==> var d := j.dataset.value; Takes(c, j, {d}, DatasetSnapshots(c, d), DatasetSessions(c, d))
  {
  }

  lemma TakenSnapshots(c: Catalog, j: Job, d: set<Id>, s: set<Id>, e: set<Id>)
    requires Takes(c, j, d, s, e)
    ensures DatasetsLeft(c, Purge(c, d, s, e), j) && SnapshotsLeft(c, Purge(c, d, s, e), j)
  {
    hide IsTarget, IsTargetSession, IsTargetDataset;
  }

  /** No session that stays refers to a snapshot that goes. */
  lemma TakenSessions(c: Catalog, j: Job, d: set<Id>, s: set<Id>, e: set<Id>)
    requires Takes(c, j, d, s, e) && SessionRowsOk(c.datasets, c.snapshots, c.sessions)
    ensures SessionsLeft(c, Purge(c, d, s, e), j)
  {
    forall x | x in c.sessions && !IsTargetSession(c, j, x) && c.sessions[x].snapshot.Some?
      ensures c.sessions[x].snapshot.value !in s
    {
      assert !IsTarget(c, j, c.sessions[x].snapshot.value);
    }
    hide IsTarget, IsTargetSession, SessionRowsOk;
  }

  lemma TakenChunks(c: Catalog, j: Job, d: set<Id>, s: set<Id>, e: set<Id>)
    requires Takes(c, j, d, s, e) && CatalogOk(c)
    ensures ChunksLeft(c, Purge(c, d, s, e), j)
  {
    hide SnapshotRowsOk, OperationRowsOk, UniqueOk, StatusOk, RefsOk, LinksOk;
    forall k | k in c.chunks ensures (k.0 in s || c.chunks[k].session in e) <==> IsTarget(c, j, k.0) {
      var x := c.chunks[k].session;
      assert x in c.sessions && c.sessions[x].snapshot == Some(k.0);
      assert IsTargetSession(c, j, x) <==> IsTarget(c, j, k.0);
    }
    hide IsTarget, IsTargetSession, SessionRowsOk, ChunkRowsOk;
  }

  lemma TakenOperations(c: Catalog, j: Job, d: set<Id>, s: set<Id>, e: set<Id>)
    requires Takes(c, j, d, s, e) && OperationRowsOk(c.datasets.Keys, c.snapshots, c.sessions.Keys, c.operations)
    ensures OperationsFollow(c, SetOperationStatus(Purge(c, d, s, e), j.op, Succeeded), j)
  {
    hide IsTarget, IsTargetSession, IsTargetDataset;
  }

  lemma Taken(c: Catalog, j: Job, d: set<Id>, s: set<Id>, e: set<Id>)
    requires Takes(c, j, d, s, e) && CatalogOk(c)
    ensures var p := SetOperationStatus(Purge(c, d, s, e), j.op, Succeeded); RowsGone(c, p, j) && OperationsFollow(c, p, j)
  {
    hide Takes, Purge, SetOperationStatus, OperationsFollow, SnapshotRowsOk, SessionRowsOk, ChunkRowsOk, OperationRowsOk;
    hide UniqueOk, StatusOk, RefsOk, LinksOk, DatasetsLeft, SnapshotsLeft, SessionsLeft, ChunksLeft;
    TakenSnapshots(c, j, d, s, e);
    TakenSessions(c, j, d, s, e);
    TakenChunks(c, j, d, s, e);
    TakenOperations(c, j, d, s, e);
    MarkingRows(Purge(c, d, s, e), j.op, Succeeded);
    SameLeft(c, Purge(c, d, s, e), SetOperationStatus(Purge(c, d, s, e), j.op, Succeeded), j);
  }

  lemma SameLeft(a: Catalog, b: Catalog, b': Catalog, j: Job)
    requires DatasetsLeft(a, b, j) && SnapshotsLeft(a, b, j) && SessionsLeft(a, b, j) && ChunksLeft(a, b, j)
    requires b'.datasets == b.datasets && b'.snapshots == b.snapshots && b'.sessions == b.sessions && b'.chunks == b.chunks
    ensures RowsGone(a, b', j)
  {
    hide IsTarget, IsTargetSession, IsTargetDataset;
  }

  // ---- the rows as they are marked first ----

  /** The same tables up to the targets' status and the operation's. */
  ghost predicate MarkedTables(a: Catalog, m: Catalog, j: Job) {
    && m.datasets == a.datasets && m.sessions == a.sessions && m.chunks == a.chunks
    && (forall s ::
          && (s in m.snapshots <==> s in a.snapshots)
          && (s in a.snapshots ==>
                m.snapshots[s] == if IsTarget(a, j, s) then a.snapshots[s].(status := Deleting) else a.snapshots[s]))
    && OneStatus(a, m, j.op, Running)
  }

  lemma Marked(a: Catalog, j: Job)
    requires j.snapshot.Some? || j.dataset.Some?
    ensures var r := SetOperationStatus(a, j.op, Running); MarkedTables(a, Invalidate(r, Targets(r, j)), j)
  {
    hide SetOperationStatus, OneStatus, Invalidate;
    var r := SetOperationStatus(a, j.op, Running);
    MarkingRows(a, j.op, Running);
    RunningOnly(a, j.op);
    assert forall s :: s in a.snapshots ==> (s in Targets(r, j) <==> IsTarget(a, j, s));
    hide Targets, IsTarget;
    InvalidateSaid(r, Targets(r, j));
    SameOperations(a, r, Invalidate(r, Targets(r, j)), j.op);
  }

  lemma RunningOnly(a: Catalog, o: Id)
    ensures OneStatus(a, SetOperationStatus(a, o, Running), o, Running)
  {
  }

  lemma SameOperations(a: Catalog, b: Catalog, c: Catalog, o: Id)
    requires OneStatus(a, b, o, Running) && c.operations == b.operations
    ensures OneStatus(a, c, o, Running)
  {
  }

  lemma InvalidateSaid(c: Catalog, gone: set<Id>)
    ensures var m := Invalidate(c, gone);
      && m.datasets == c.datasets && m.sessions == c.sessions && m.chunks == c.chunks && m.operations == c.operations
      && (forall s ::
            && (s in m.snapshots <==> s in c.snapshots)
            && (s in c.snapshots ==>
                  m.snapshots[s] == if s in gone then c.snapshots[s].(status := Deleting) else c.snapshots[s]))
  {
  }

  lemma MarkedTargets(a: Catalog, m: Catalog, j: Job)
    requires MarkedTables(a, m, j)
    ensures forall s :: IsTarget(m, j, s) <==> IsTarget(a, j, s)
    ensures forall e :: IsTargetSession(m, j, e) <==> IsTargetSession(a, j, e)
  {
    hide OneStatus;
  }

  lemma MarkedGone(a: Catalog, m: Catalog, b: Catalog, j: Job)
    requires MarkedTables(a, m, j) && RowsGone(m, b, j)
    ensures RowsGone(a, b, j)
  {
    MarkedTargets(a, m, j);
    hide IsTarget, IsTargetSession, IsTargetDataset, OneStatus;
  }

  lemma SameCleared(a: Catalog, m: Catalog, j: Job, p: Operation)
    requires MarkedTables(a, m, j)
    ensures Cleared(m, j, p) == Cleared(a, j, p)
  {
    MarkedTargets(a, m, j);
    hide IsTarget, IsTargetSession, IsTargetDataset, OneStatus;
  }

  lemma MarkedFollow(a: Catalog, m: Catalog, b: Catalog, j: Job)
    requires MarkedTables(a, m, j) && OperationsFollow(m, b, j)
    ensures OperationsFollow(a, b, j)
  {
    hide Cleared, IsTarget;
    forall p: Operation ensures Cleared(m, j, p) == Cleared(a, j, p) {
      SameCleared(a, m, j, p);
    }
  }

  lemma MarkedNeeded(a: Catalog, m: Catalog, j: Job)
    requires MarkedTables(a, m, j)
    ensures StillNeeded(m, j) <==> StillNeeded(a, j)
  {
    hide IsTarget, OneStatus;
  }

  lemma MarkedStopped(a: Catalog, m: Catalog, j: Job)
    requires MarkedTables(a, m, j)
    ensures OnlyMarked(a, SetOperationStatus(m, j.op, OpFailed), j)
  {
    hide IsTarget;
    MarkingRows(m, j.op, OpFailed);
  }

  lemma FailedOnly(a: Catalog, j: Job)
    ensures OnlyFailed(a, SetOperationStatus(SetOperationStatus(a, j.op, Running), j.op, OpFailed), j)
  {
    MarkingRows(a, j.op, Running);
    MarkingRows(SetOperationStatus(a, j.op, Running), j.op, OpFailed);
  }

  // ---- the whole job ----

  lemma FinishSaid(m: Catalog, j: Job)
    requires CatalogOk(m) && j.dataset.Some?
    ensures StillNeeded(m, j) ==> FinishRows(m, j) == SetOperationStatus(m, j.op, OpFailed)
    ensures !StillNeeded(m, j) ==> RowsGone(m, FinishRows(m, j), j) && OperationsFollow(m, FinishRows(m, j), j)
  {
    hide CatalogOk, Purge, Blocked, SetOperationStatus, RowsGone, OperationsFollow, Takes, StillNeeded;
    hide SessionsOf, DatasetSnapshots, DatasetSessions, RemoveSnapshot;
    JobTakes(m, j);
    if j.snapshot.Some? {
      var s := j.snapshot.value;
      NeededBlocks(m, j);
      RemoveSnapshotIsPurge(m, s);
      Taken(m, j, {}, {s}, SessionsOf(m, s));
    } else {
      var d := j.dataset.value;
      DatasetDeletable(m, d);
      NotNeeded(m, j);
      Taken(m, j, {d}, DatasetSnapshots(m, d), DatasetSessions(m, d));
    }
  }

  lemma NotNeeded(c: Catalog, j: Job)
    requires j.snapshot.None?
    ensures !StillNeeded(c, j)
  {
  }

  /** What a job brings about when no call fails. Refused, it only fails its operation. Otherwise exactly the objects
      its targets named are gone; and either the targets' rows are, with all that belongs to them, or, when something
      else still needs the snapshot, they are marked and the operation has failed. */
  lemma OutcomeSaid(disk: Disk, j: Job)
    requires CatalogOk(disk.cat) && OnceListed(disk.cat, j)
    ensures Acyclic(ParentsOf(disk.cat.snapshots))
    ensures Refused(disk.cat, j) ==>
      OnlyFailed(disk.cat, Outcome(disk, j).cat, j) && Outcome(disk, j).store == disk.store
    ensures !Refused(disk.cat, j) ==> ObjectsGone(disk.cat, j, disk.store, Outcome(disk, j).store)
    ensures !Refused(disk.cat, j) && StillNeeded(disk.cat, j) ==> OnlyMarked(disk.cat, Outcome(disk, j).cat, j)
    ensures !Refused(disk.cat, j) && !StillNeeded(disk.cat, j) ==>
      RowsGone(disk.cat, Outcome(disk, j).cat, j) && OperationsFollow(disk.cat, Outcome(disk, j).cat, j)
  {
    hide SnapshotRowsOk, SessionRowsOk, ChunkRowsOk, OperationRowsOk, UniqueOk, StatusOk, RefsOk, Acyclic;
    hide SetOperationStatus, Invalidate, Targets, ObjectKeys, FinishRows, CountCommittedDescendants;
    hide StillNeeded, RowsGone, OperationsFollow, OnlyMarked, OnlyFailed, MarkedTables, NamedByTarget;
    var a := disk.cat;
    if Refused(a, j) {
      FailedOnly(a, j);
    } else {
      var r := SetOperationStatus(a, j.op, Running);
      var m := Invalidate(r, Targets(r, j));
      OnceDataset(a, j);
      forall k ensures k in ObjectKeys(a, Targets(a, j)) <==> NamedByTarget(a, j, k) {
        ObjectKeysNamed(a, j, k);
      }
      Marked(a, j);
      MarkedCatalog(disk, j);
      MarkedNeeded(a, m, j);
      FinishSaid(m, j);
      MarkedStopped(a, m, j);
      if !StillNeeded(a, j) {
        MarkedGone(a, m, FinishRows(m, j), j);
        MarkedFollow(a, m, FinishRows(m, j), j);
      }
    }
  }
}
