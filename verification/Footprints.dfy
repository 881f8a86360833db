/** What of the catalog and the store one deletion can see and touch: the rows of its dataset, its own operation and
    the objects under the dataset's name. A deletion does the same to two disks that agree on those. */
module Footprints {
  import opened Base
  import opened Manifests
  import opened Catalogs
  import opened Lineage
  import opened Streams
  import opened Machine
  import opened Invariant
  import opened SafetyPurge
  import opened Deletions
  import opened Cleanups

  /** Startup reconciliation turns what is neither committed nor complete into failed; a deletion cannot tell. */
  function Plain(s: Snapshot): Snapshot {
    s.(status := if s.status == Committed then Committed else Failed)
  }

  function Ended(e: Session): Session {
    e.(status := if e.status == Complete then Complete else SessionFailed)
  }

  ghost predicate SameSnapshots(a: map<Id, Snapshot>, b: map<Id, Snapshot>, d: Id) {
    forall s ::
      && ((s in a && a[s].dataset == d) <==> (s in b && b[s].dataset == d))
      && (s in a && a[s].dataset == d ==> Plain(a[s]) == Plain(b[s]))
  }

  ghost predicate SameSessions(a: map<Id, Session>, b: map<Id, Session>, d: Id) {
    forall e ::
      && ((e in a && a[e].dataset == d) <==> (e in b && b[e].dataset == d))
      && (e in a && a[e].dataset == d ==> Ended(a[e]) == Ended(b[e]))
  }

  ghost predicate SameChunkAt(a: Catalog, b: Catalog, d: Id, k: (Id, nat)) {
    && ((k in a.chunks && InDataset(a.snapshots, k.0, d)) <==> (k in b.chunks && InDataset(b.snapshots, k.0, d)))
    && (k in a.chunks && InDataset(a.snapshots, k.0, d) ==> a.chunks[k] == b.chunks[k])
  }

  ghost predicate SameChunks(a: Catalog, b: Catalog, d: Id) {
    forall k :: SameChunkAt(a, b, d, k)
  }

  ghost predicate SameRow<T(!new)>(a: map<Id, T>, b: map<Id, T>, id: Id) {
    (id in a <==> id in b) && (id in a ==> a[id] == b[id])
  }

  /** The rows of one dataset, and one operation. */
  ghost predicate SameRows(a: Catalog, b: Catalog, d: Id, o: Id) {
    && SameRow(a.datasets, b.datasets, d) && SameRow(a.operations, b.operations, o)
    && SameSnapshots(a.snapshots, b.snapshots, d) && SameSessions(a.sessions, b.sessions, d) && SameChunks(a, b, d)
  }

  ghost predicate SameStored(a: Objects, b: Objects, name: DatasetName) {
    forall k: Key :: k.ds == name ==> (k in a <==> k in b) && (k in a ==> a[k] == b[k])
  }

  ghost predicate SameFoot(a: Disk, b: Disk, d: Id, name: DatasetName, o: Id) {
    SameRows(a.cat, b.cat, d, o) && SameStored(a.store, b.store, name)
  }

  lemma SelfFoot(a: Disk, d: Id, name: DatasetName, o: Id)
    ensures SameFoot(a, a, d, name, o)
  {
  }

  lemma RowsTransitive(a: Catalog, b: Catalog, c: Catalog, d: Id, o: Id)
    requires SameRows(a, b, d, o) && SameRows(b, c, d, o)
    ensures SameRows(a, c, d, o)
  {
    hide InDataset;
    SnapshotsTransitive(a.snapshots, b.snapshots, c.snapshots, d);
    SessionsTransitive(a.sessions, b.sessions, c.sessions, d);
    hide SameSnapshots, SameSessions;
    forall k ensures SameChunkAt(a, c, d, k) {
      assert SameChunkAt(a, b, d, k) && SameChunkAt(b, c, d, k);
    }
  }

  lemma FootTransitive(a: Disk, b: Disk, c: Disk, d: Id, name: DatasetName, o: Id)
    requires SameFoot(a, b, d, name, o) && SameFoot(b, c, d, name, o)
    ensures SameFoot(a, c, d, name, o)
  {
    RowsTransitive(a.cat, b.cat, c.cat, d, o);
    hide SameRows;
  }

  lemma SnapshotsTransitive(a: map<Id, Snapshot>, b: map<Id, Snapshot>, c: map<Id, Snapshot>, d: Id)
    requires SameSnapshots(a, b, d) && SameSnapshots(b, c, d)
    ensures SameSnapshots(a, c, d)
  {
    hide Plain;
  }

  lemma SessionsTransitive(a: map<Id, Session>, b: map<Id, Session>, c: map<Id, Session>, d: Id)
    requires SameSessions(a, b, d) && SameSessions(b, c, d)
    ensures SameSessions(a, c, d)
  {
    hide Ended;
  }

  lemma FootSymmetric(a: Disk, b: Disk, d: Id, name: DatasetName, o: Id)
    requires SameFoot(a, b, d, name, o)
    ensures SameFoot(b, a, d, name, o)
  {
    hide Plain, Ended, InDataset;
    ChunksSymmetric(a.cat, b.cat, d);
  }

  lemma ChunksSymmetric(a: Catalog, b: Catalog, d: Id)
    requires SameChunks(a, b, d)
    ensures SameChunks(b, a, d)
  {
    forall k ensures SameChunkAt(b, a, d, k) {
      assert SameChunkAt(a, b, d, k);
    }
  }

  // ---- the statements of a deletion ----

  ghost predicate RowsOk(c: Catalog) {
    && SnapshotRowsOk(c.datasets, c.snapshots) && SessionRowsOk(c.datasets, c.snapshots, c.sessions)
    && ChunkRowsOk(c.datasets, c.snapshots, c.sessions, c.chunks)
  }

  /** The job's snapshot, while it exists, lies in the job's dataset. */
  ghost predicate JobRefs(c: Catalog, j: Job) {
    j.snapshot.Some? ==>
      j.dataset.Some? && (j.snapshot.value in c.snapshots ==> c.snapshots[j.snapshot.value].dataset == j.dataset.value)
  }

  lemma StatusSame(a: Catalog, b: Catalog, d: Id, o: Id, status: OperationStatus)
    requires SameRows(a, b, d, o)
    ensures SameRows(SetOperationStatus(a, o, status), SetOperationStatus(b, o, status), d, o)
  {
    hide SameSnapshots, SameSessions, InDataset;
    var x, y := SetOperationStatus(a, o, status), SetOperationStatus(b, o, status);
    forall k ensures SameChunkAt(x, y, d, k) {
      assert SameChunkAt(a, b, d, k);
    }
  }

  lemma InvalidateSame(a: Catalog, b: Catalog, d: Id, o: Id, gone: set<Id>)
    requires SameRows(a, b, d, o)
    ensures SameRows(Invalidate(a, gone), Invalidate(b, gone), d, o)
  {
    hide SameSessions;
    InvalidateChunksSame(a, b, d, gone);
    hide SameChunks;
  }

  lemma InvalidateChunksSame(a: Catalog, b: Catalog, d: Id, gone: set<Id>)
    requires SameChunks(a, b, d)
    ensures SameChunks(Invalidate(a, gone), Invalidate(b, gone), d)
  {
    var x, y := Invalidate(a, gone), Invalidate(b, gone);
    forall k ensures SameChunkAt(x, y, d, k) {
      assert SameChunkAt(a, b, d, k);
    }
  }

  lemma PurgeSnapshotsSame(a: Catalog, b: Catalog, d: Id, ds: set<Id>, s: set<Id>, e: set<Id>)
    requires SameSnapshots(a.snapshots, b.snapshots, d)
    ensures SameSnapshots(Purge(a, ds, s, e).snapshots, Purge(b, ds, s, e).snapshots, d)
  {
    hide Plain;
  }

  lemma PurgedRow(c: Catalog, d: Id, ds: set<Id>, s: set<Id>, e: set<Id>, k: (Id, nat))
    ensures var x := Purge(c, ds, s, e);
      && (k in x.chunks && InDataset(x.snapshots, k.0, d)
          <==> k in c.chunks && InDataset(c.snapshots, k.0, d) && k.0 !in s && c.chunks[k].session !in e)
      && (k in x.chunks ==> k in c.chunks && x.chunks[k] == c.chunks[k])
  {
  }

  lemma PurgeChunksSame(a: Catalog, b: Catalog, d: Id, ds: set<Id>, s: set<Id>, e: set<Id>)
    requires SameChunks(a, b, d)
    ensures SameChunks(Purge(a, ds, s, e), Purge(b, ds, s, e), d)
  {
    hide InDataset, Purge;
    forall k ensures SameChunkAt(Purge(a, ds, s, e), Purge(b, ds, s, e), d, k) {
      PurgedRow(a, d, ds, s, e, k);
      PurgedRow(b, d, ds, s, e, k);
      assert SameChunkAt(a, b, d, k);
    }
  }

  lemma PurgeSessionsSame(a: Catalog, b: Catalog, d: Id, o: Id, ds: set<Id>, s: set<Id>, e: set<Id>)
    requires SameRows(a, b, d, o)
    ensures SameSessions(Purge(a, ds, s, e).sessions, Purge(b, ds, s, e).sessions, d)
  {
    hide SameChunks, SameSnapshots;
    var x, y := Purge(a, ds, s, e).sessions, Purge(b, ds, s, e).sessions;
    forall f | f in a.sessions && a.sessions[f].dataset == d && f !in e ensures Ended(x[f]) == Ended(y[f]) {
      assert Ended(a.sessions[f]) == Ended(b.sessions[f]);
    }
  }

  lemma PurgeSame(a: Catalog, b: Catalog, d: Id, o: Id, ds: set<Id>, s: set<Id>, e: set<Id>)
    requires SameRows(a, b, d, o)
    ensures SameRows(Purge(a, ds, s, e), Purge(b, ds, s, e), d, o)
  {
    PurgeSnapshotsSame(a, b, d, ds, s, e);
    PurgeChunksSame(a, b, d, ds, s, e);
    PurgeSessionsSame(a, b, d, o, ds, s, e);
    hide SameSnapshots, SameSessions, SameChunks;
  }

  lemma TargetsSame(a: Catalog, b: Catalog, j: Job, d: Id)
    requires RowsOk(a) && RowsOk(b) && SameRows(a, b, d, j.op) && JobRefs(a, j) && JobRefs(b, j) && j.dataset == Some(d)
    ensures Targets(a, j) == Targets(b, j)
    ensures ObjectKeys(a, Targets(a, j)) == ObjectKeys(b, Targets(b, j))
    ensures j.snapshot.Some? ==> (j.snapshot.value in a.snapshots <==> j.snapshot.value in b.snapshots)
  {
    hide SameSessions, SessionRowsOk, ObjectKeys, SameChunks;
    assert Targets(a, j) == Targets(b, j);
    KeysIncluded(a, b, j, d);
    ChunksSymmetric(a, b, d);
    KeysIncluded(b, a, j, d);
  }

  lemma ChunkIs(a: Catalog, b: Catalog, d: Id, k: (Id, nat))
    requires SameChunks(a, b, d)
    ensures SameChunkAt(a, b, d, k)
  {
  }

  lemma KeysIncluded(a: Catalog, b: Catalog, j: Job, d: Id)
    requires SameSnapshots(a.snapshots, b.snapshots, d) && SameChunks(a, b, d) && JobRefs(a, j) && j.dataset == Some(d)
    requires Targets(a, j) == Targets(b, j) && RowsOk(a)
    ensures ObjectKeys(a, Targets(a, j)) <= ObjectKeys(b, Targets(b, j))
  {
    hide SessionRowsOk, SameChunks;
    forall k | k in ObjectKeys(a, Targets(a, j)) ensures k in ObjectKeys(b, Targets(b, j)) {
      if r :| r in a.chunks && r.0 in Targets(a, j) && a.chunks[r].key == k {
        assert SameChunkAt(a, b, d, r) by { ChunkIs(a, b, d, r); }
        assert InDataset(a.snapshots, r.0, d);
        assert r in b.chunks && b.chunks[r].key == k;
      } else {
        var s :| s in Targets(a, j) && s in a.snapshots && a.snapshots[s].manifestKey == Some(k);
        assert Plain(a.snapshots[s]) == Plain(b.snapshots[s]);
        assert b.snapshots[s].manifestKey == Some(k);
      }
    }
  }

  lemma RefusedSame(a: Catalog, b: Catalog, j: Job, d: Id)
    requires Acyclic(ParentsOf(a.snapshots)) && Acyclic(ParentsOf(b.snapshots))
    requires SameRows(a, b, d, j.op) && JobRefs(a, j) && JobRefs(b, j) && j.dataset == Some(d) && RowsOk(a) && RowsOk(b)
    ensures Refused(a, j) <==> Refused(b, j)
  {
    hide Acyclic;
    if j.snapshot.Some? {
      ChildrenIncluded(a, b, j, d);
      ChildrenIncluded(b, a, j, d);
      assert CommittedChildren(a.snapshots, {j.snapshot.value}) == CommittedChildren(b.snapshots, {j.snapshot.value});
      SomeCounted(a.snapshots, j.snapshot.value);
      SomeCounted(b.snapshots, j.snapshot.value);
    }
  }

  lemma SomeCounted(snapshots: map<Id, Snapshot>, x: Id)
    requires Acyclic(ParentsOf(snapshots))
    ensures CountCommittedDescendants(snapshots, x) > 0 <==> CommittedChildren(snapshots, {x}) != {}
  {
    hide Acyclic;
  }

  lemma ChildrenIncluded(a: Catalog, b: Catalog, j: Job, d: Id)
    requires SameSnapshots(a.snapshots, b.snapshots, d) && JobRefs(a, j) && j.snapshot.Some? && j.dataset == Some(d)
    requires SnapshotRowsOk(a.datasets, a.snapshots)
    ensures CommittedChildren(a.snapshots, {j.snapshot.value}) <= CommittedChildren(b.snapshots, {j.snapshot.value})
  {
    forall t | t in CommittedChildren(a.snapshots, {j.snapshot.value})
      ensures t in CommittedChildren(b.snapshots, {j.snapshot.value})
    {
      assert InDataset(a.snapshots, j.snapshot.value, a.snapshots[t].dataset);
      assert Plain(a.snapshots[t]) == Plain(b.snapshots[t]);
    }
  }

  lemma ReferencesSame(a: Catalog, b: Catalog, j: Job, d: Id)
    requires SameRows(a, b, d, j.op) && JobRefs(a, j) && JobRefs(b, j) && j.dataset == Some(d) && RowsOk(a) && RowsOk(b)
    requires j.snapshot.Some?
    ensures var s := j.snapshot.value;
      SessionsOf(a, s) == SessionsOf(b, s) && (Blocked(a, {s}, SessionsOf(a, s)) <==> Blocked(b, {s}, SessionsOf(b, s)))
  {
    hide SameChunks, ChunkRowsOk;
    var s := j.snapshot.value;
    SessionsIncluded(a, b, j, d);
    SessionsIncluded(b, a, j, d);
    if Blocked(a, {s}, SessionsOf(a, s)) { BlockedToo(a, b, j, d); }
    if Blocked(b, {s}, SessionsOf(b, s)) { BlockedToo(b, a, j, d); }
  }

  lemma SessionsIncluded(a: Catalog, b: Catalog, j: Job, d: Id)
    requires SameSessions(a.sessions, b.sessions, d) && JobRefs(a, j) && j.snapshot.Some? && j.dataset == Some(d)
    requires SessionRowsOk(a.datasets, a.snapshots, a.sessions)
    ensures SessionsOf(a, j.snapshot.value) <= SessionsOf(b, j.snapshot.value)
  {
    forall e | e in SessionsOf(a, j.snapshot.value) ensures e in SessionsOf(b, j.snapshot.value) {
      assert Ended(a.sessions[e]) == Ended(b.sessions[e]);
    }
  }

  lemma BlockedToo(a: Catalog, b: Catalog, j: Job, d: Id)
    requires SameSnapshots(a.snapshots, b.snapshots, d) && SameSessions(a.sessions, b.sessions, d)
    requires JobRefs(a, j) && j.snapshot.Some? && j.dataset == Some(d)
    requires SnapshotRowsOk(a.datasets, a.snapshots) && SessionRowsOk(a.datasets, a.snapshots, a.sessions)
    requires SessionsOf(a, j.snapshot.value) == SessionsOf(b, j.snapshot.value)
    requires Blocked(a, {j.snapshot.value}, SessionsOf(a, j.snapshot.value))
    ensures Blocked(b, {j.snapshot.value}, SessionsOf(b, j.snapshot.value))
  {
    var s := j.snapshot.value;
    if t :| t in a.snapshots && t != s && a.snapshots[t].parent == Some(s) {
      assert InDataset(a.snapshots, s, a.snapshots[t].dataset);
      assert Plain(a.snapshots[t]) == Plain(b.snapshots[t]);
      assert t in b.snapshots && b.snapshots[t].parent.value in {s};
    } else {
      var e :| e in a.sessions && e !in SessionsOf(a, s) && a.sessions[e].base == Some(s);
      assert Ended(a.sessions[e]) == Ended(b.sessions[e]);
      assert e in b.sessions && b.sessions[e].base.value in {s};
    }
  }

  lemma FinishSame(a: Catalog, b: Catalog, j: Job, d: Id)
    requires SameRows(a, b, d, j.op) && JobRefs(a, j) && JobRefs(b, j) && j.dataset == Some(d) && RowsOk(a) && RowsOk(b)
    ensures SameRows(FinishRows(a, j), FinishRows(b, j), d, j.op)
  {
    hide SameRows, Purge, Blocked, SetOperationStatus, RemoveSnapshot, SessionsOf, RowsOk, JobRefs;
    StatusSame(a, b, d, j.op, OpFailed);
    if j.snapshot.Some? {
      var s := j.snapshot.value;
      var e := SessionsOf(a, s);
      ReferencesSame(a, b, j, d);
      RemoveSnapshotIsPurge(a, s);
      RemoveSnapshotIsPurge(b, s);
      PurgeSame(a, b, d, j.op, {}, {s}, e);
      StatusSame(Purge(a, {}, {s}, e), Purge(b, {}, {s}, e), d, j.op, Succeeded);
    } else {
      DatasetRows(a, d);
      DatasetRows(b, d);
      SameDataset(a, b, d, j.op);
      var s, e := DatasetSnapshots(a, d), DatasetSessions(a, d);
      PurgeSame(a, b, d, j.op, {d}, s, e);
      StatusSame(Purge(a, {d}, s, e), Purge(b, {d}, s, e), d, j.op, Succeeded);
    }
  }

  lemma DatasetRows(c: Catalog, d: Id)
    requires RowsOk(c)
    ensures !Blocked(c, DatasetSnapshots(c, d), DatasetSessions(c, d))
  {
    DatasetRemovable(c, d);
    Unblocked(c, d);
  }

  lemma SameDataset(a: Catalog, b: Catalog, d: Id, o: Id)
    requires SameRows(a, b, d, o)
    ensures DatasetSnapshots(a, d) == DatasetSnapshots(b, d) && DatasetSessions(a, d) == DatasetSessions(b, d)
  {
    hide SameChunks;
  }

  lemma MarkedRowsOk(c: Catalog, j: Job, gone: set<Id>)
    requires RowsOk(c) && JobRefs(c, j)
    ensures var m := SetOperationStatus(c, j.op, Running);
      RowsOk(m) && JobRefs(m, j) && RowsOk(Invalidate(m, gone)) && JobRefs(Invalidate(m, gone), j)
  {
    MarkingRows(c, j.op, Running);
    hide SetOperationStatus;
  }

  /** A whole deletion, on two disks with the same footprint, leaves two disks with the same footprint. */
  lemma OutcomeSame(a: Disk, b: Disk, j: Job, d: Id, name: DatasetName)
    requires Acyclic(ParentsOf(a.cat.snapshots)) && Acyclic(ParentsOf(b.cat.snapshots))
    requires RowsOk(a.cat) && RowsOk(b.cat) && JobRefs(a.cat, j) && JobRefs(b.cat, j)
    requires j.dataset == Some(d) && SameFoot(a, b, d, name, j.op)
    ensures SameFoot(Outcome(a, j), Outcome(b, j), d, name, j.op)
  {
    hide Acyclic, SetOperationStatus, Invalidate, FinishRows, Targets, ObjectKeys, Refused, SameRows, RowsOk, JobRefs;
    RefusedSame(a.cat, b.cat, j, d);
    StatusSame(a.cat, b.cat, d, j.op, Running);
    var ma, mb := SetOperationStatus(a.cat, j.op, Running), SetOperationStatus(b.cat, j.op, Running);
    StatusSame(ma, mb, d, j.op, OpFailed);
    TargetsSame(a.cat, b.cat, j, d);
    var gone := Targets(ma, j);
    MarkingRows(a.cat, j.op, Running);
    MarkingRows(b.cat, j.op, Running);
    Deletions.SameTargets(a.cat, ma, j);
    Deletions.SameTargets(b.cat, mb, j);
    MarkedRowsOk(a.cat, j, gone);
    MarkedRowsOk(b.cat, j, gone);
    InvalidateSame(ma, mb, d, j.op, gone);
    FinishSame(Invalidate(ma, gone), Invalidate(mb, gone), j, d);
  }
}
