/** A batch of cleanup operations of any length, cut off by a crash after any step of any of its jobs, and listed again
    (internal/deletion/worker.go): when the remaining jobs do what they would have done. */
module BatchResumption {
  import opened Base
  import opened Manifests
  import opened Catalogs
  import opened Lineage
  import opened Streams
  import opened Machine
  import opened Invariant
  import opened SafetyPurge
  import opened SafetyEnd
  import opened SafetyWorker
  import opened Deletions
  import opened Deleters
  import opened Cleanups
  import opened Footprints
  import opened Batches

  // ---- what one job leaves ----

  /** Rows of snapshots and datasets may go; none comes, and none moves to another dataset. */
  ghost predicate Shrinks(a: Catalog, b: Catalog) {
    && b.datasets.Keys <= a.datasets.Keys && b.snapshots.Keys <= a.snapshots.Keys
    && (forall s :: s in b.snapshots ==> b.snapshots[s].dataset == a.snapshots[s].dataset)
  }

  lemma ShrinksTransitive(a: Catalog, b: Catalog, c: Catalog)
    requires Shrinks(a, b) && Shrinks(b, c)
    ensures Shrinks(a, c)
  {
  }

  lemma FollowsTransitive(a: Catalog, b: Catalog, c: Catalog)
    requires ReferencesFollow(a, b) && ReferencesFollow(b, c) && Shrinks(a, b) && Shrinks(b, c)
    ensures ReferencesFollow(a, c)
  {
  }

  /** The snapshots and datasets a job removes when it goes through. */
  function Removed(c: Catalog, j: Job): set<Id> {
    if j.snapshot.Some? then {j.snapshot.value}
    else if j.dataset.Some? then DatasetSnapshots(c, j.dataset.value) else {}
  }

  function RemovedDatasets(j: Job): set<Id> {
    if j.snapshot.None? && j.dataset.Some? then {j.dataset.value} else {}
  }

  lemma MarkedKeys(c: Catalog, j: Job)
    requires j.dataset.Some?
    ensures var m := SetOperationStatus(c, j.op, Running); var rows := Invalidate(m, Targets(m, j));
      && rows.datasets == c.datasets && rows.snapshots.Keys == c.snapshots.Keys
      && (forall s :: s in c.snapshots ==> rows.snapshots[s].dataset == c.snapshots[s].dataset)
      && DatasetSnapshots(rows, j.dataset.value) == DatasetSnapshots(c, j.dataset.value)
  {
    MarkingRows(c, j.op, Running);
    hide SetOperationStatus, Targets;
  }

  /** Exactly the job's own rows are gone, if it goes through. */
  lemma OutcomeRows(disk: Disk, j: Job)
    requires CatalogOk(disk.cat) && OnceListed(disk.cat, j)
    ensures Acyclic(ParentsOf(disk.cat.snapshots))
    ensures var after := Outcome(disk, j).cat;
      && after.snapshots.Keys == (if GoesThrough(disk.cat, j) then disk.cat.snapshots.Keys - Removed(disk.cat, j)
                                  else disk.cat.snapshots.Keys)
      && after.datasets.Keys == disk.cat.datasets.Keys - RemovedDatasets(j)
      && Shrinks(disk.cat, after)
  {
    hide CatalogOk, SetOperationStatus, Invalidate, Targets, ObjectKeys, Acyclic, Refused, Blocked, SessionsOf, Purge;
    hide DatasetSessions, RemoveSnapshot;
    CatalogAcyclic(disk.cat);
    var c := disk.cat;
    var marked := SetOperationStatus(c, j.op, Running);
    MarkingRows(c, j.op, Running);
    MarkingRows(marked, j.op, OpFailed);
    if !Refused(c, j) {
      OnceDataset(c, j);
      MarkedKeys(c, j);
      MarkedCatalog(disk, j);
      var rows := Invalidate(marked, Targets(marked, j));
      MarkingRows(rows, j.op, OpFailed);
      if j.snapshot.Some? {
        var s := j.snapshot.value;
        RemoveSnapshotIsPurge(rows, s);
        MarkingRows(Purge(rows, {}, {s}, SessionsOf(rows, s)), j.op, Succeeded);
        PurgedKeys(rows, {}, {s}, SessionsOf(rows, s));
      } else {
        var d := j.dataset.value;
        DatasetDeletable(rows, d);
        MarkingRows(Purge(rows, {d}, DatasetSnapshots(rows, d), DatasetSessions(rows, d)), j.op, Succeeded);
        PurgedKeys(rows, {d}, DatasetSnapshots(rows, d), DatasetSessions(rows, d));
      }
    } else {
      DatasetNotRefused(c, j);
    }
  }

  lemma OnceDataset(c: Catalog, j: Job)
    requires JobRefs(c, j) && Acyclic(ParentsOf(c.snapshots)) && !Refused(c, j)
    ensures j.dataset.Some?
  {
    hide Acyclic, CountCommittedDescendants;
  }

  lemma DatasetNotRefused(c: Catalog, j: Job)
    requires Acyclic(ParentsOf(c.snapshots)) && Refused(c, j)
    ensures RemovedDatasets(j) == {}
  {
    hide Acyclic, CountCommittedDescendants;
  }

  lemma PurgedKeys(c: Catalog, d: set<Id>, s: set<Id>, e: set<Id>)
    ensures var p := Purge(c, d, s, e);
      && p.datasets.Keys == c.datasets.Keys - d && p.snapshots.Keys == c.snapshots.Keys - s
      && (forall t :: t in p.snapshots ==> p.snapshots[t] == c.snapshots[t])
  {
  }

  lemma OnceAfter(disk: Disk, j: Job, k: Job)
    requires CatalogOk(disk.cat) && OnceListed(disk.cat, j) && OnceListed(disk.cat, k)
    ensures OnceListed(Outcome(disk, j).cat, k)
  {
    hide CatalogOk, Outcome;
    OutcomeRows(disk, j);
    OutcomeFollows(disk, j);
  }

  // ---- what a batch leaves ----

  ghost predicate AllOnce(c: Catalog, jobs: seq<Job>) {
    forall m :: 0 <= m < |jobs| ==> OnceListed(c, jobs[m])
  }

  /** Whatever a batch has done, the catalog is consistent, references follow the rows, and no row has come back. */
  lemma {:induction false} BatchKeeps(disk: Disk, jobs: seq<Job>, k: Job)
    requires CatalogOk(disk.cat) && AllOnce(disk.cat, jobs) && OnceListed(disk.cat, k)
    ensures Acyclic(ParentsOf(disk.cat.snapshots))
    ensures var end := Batch(disk, jobs).cat;
      CatalogOk(end) && ReferencesFollow(disk.cat, end) && Shrinks(disk.cat, end) && OnceListed(end, k)
  {
    hide CatalogOk, Outcome, ReferencesFollow, Shrinks, OnceListed, Acyclic;
    CatalogAcyclic(disk.cat);
    if jobs == [] {
      SameFollows(disk.cat);
      SameShrinks(disk.cat);
    } else {
      var n := |jobs| - 1;
      assert AllOnce(disk.cat, jobs[..n]);
      BatchKeeps(disk, jobs[..n], jobs[n]);
      BatchKeeps(disk, jobs[..n], k);
      var before := Batch(disk, jobs[..n]);
      OutcomeCatalog(before, jobs[n]);
      OutcomeFollows(before, jobs[n]);
      OutcomeRows(before, jobs[n]);
      OnceAfter(before, jobs[n], k);
      FollowsTransitive(disk.cat, before.cat, Outcome(before, jobs[n]).cat);
      ShrinksTransitive(disk.cat, before.cat, Outcome(before, jobs[n]).cat);
    }
  }

  lemma SameShrinks(c: Catalog)
    ensures Shrinks(c, c)
  {
  }

  lemma {:induction false} BatchAppend(disk: Disk, jobs: seq<Job>, more: seq<Job>)
    requires Acyclic(ParentsOf(disk.cat.snapshots))
    ensures Batch(Batch(disk, jobs), more) == Batch(disk, jobs + more)
  {
    hide Acyclic, Outcome;
    if more == [] {
      assert jobs + more == jobs;
    } else {
      var n := |more| - 1;
      BatchAppend(disk, jobs, more[..n]);
      assert (jobs + more)[..|jobs + more| - 1] == jobs + more[..n];
    }
  }

  ghost predicate OnDataset(j: Job, d: Id) {
    j.snapshot.None? && j.dataset == Some(d)
  }

  /** A dataset is gone after a batch exactly when it was gone before or one of the jobs was for it. */
  lemma {:induction false} BatchDatasets(disk: Disk, jobs: seq<Job>, d: Id)
    requires CatalogOk(disk.cat) && AllOnce(disk.cat, jobs) && Acyclic(ParentsOf(disk.cat.snapshots))
    ensures d in Batch(disk, jobs).cat.datasets <==>
      d in disk.cat.datasets && forall m :: 0 <= m < |jobs| ==> !OnDataset(jobs[m], d)
  {
    hide CatalogOk, Outcome, Shrinks, OnceListed, Acyclic, ReferencesFollow;
    if jobs != [] {
      var n := |jobs| - 1;
      assert AllOnce(disk.cat, jobs[..n]);
      BatchDatasets(disk, jobs[..n], d);
      BatchKeeps(disk, jobs[..n], jobs[n]);
      OutcomeRows(Batch(disk, jobs[..n]), jobs[n]);
      assert forall m :: 0 <= m < n ==> jobs[..n][m] == jobs[m];
    }
  }

  // ---- a job whose rows are gone ----

  lemma NothingRefers(c: Catalog, j: Job)
    requires CatalogOk(c) && (j.snapshot.Some? || j.dataset.Some?)
    requires j.snapshot.Some? ==> j.snapshot.value !in c.snapshots
    requires j.snapshot.None? ==> j.dataset.value !in c.datasets
    ensures RemovedRows(c, j) == Some(c)
  {
    hide UniqueOk, StatusOk, RefsOk, LinksOk;
    if j.snapshot.Some? {
      var s := j.snapshot.value;
      RemoveSnapshotIsPurge(c, s);
      assert SessionsOf(c, s) == {} && !Blocked(c, {s}, {});
      NoReferencePurged(c, {}, {s});
    } else {
      var d := j.dataset.value;
      assert DatasetSnapshots(c, d) == {} && DatasetSessions(c, d) == {};
      NoReferencePurged(c, {d}, {});
    }
  }

  lemma NoReferencePurged(c: Catalog, d: set<Id>, s: set<Id>)
    requires d !! c.datasets.Keys && s !! c.snapshots.Keys
    requires forall e :: e in c.sessions && c.sessions[e].snapshot.Some? ==> c.sessions[e].snapshot.value !in s
    requires forall k :: k in c.chunks ==> k.0 !in s
    requires forall o :: o in c.operations ==>
      && (c.operations[o].dataset.Some? ==> c.operations[o].dataset.value !in d)
      && (c.operations[o].snapshot.Some? ==> c.operations[o].snapshot.value !in s)
    ensures Purge(c, d, s, {}) == c
  {
    var p := Purge(c, d, s, {});
    assert p.datasets == c.datasets && p.snapshots == c.snapshots && p.sessions == c.sessions;
    assert p.chunks == c.chunks && p.operations == c.operations;
  }

  /** It closes its operation and does nothing else. */
  lemma GoneOutcome(disk: Disk, j: Job)
    requires CatalogOk(disk.cat) && (j.snapshot.Some? || j.dataset.Some?)
    requires j.snapshot.Some? ==> j.snapshot.value !in disk.cat.snapshots
    requires j.snapshot.None? ==> j.dataset.value !in disk.cat.datasets
    ensures Acyclic(ParentsOf(disk.cat.snapshots))
    ensures Outcome(disk, j) == disk.(cat := SetOperationStatus(disk.cat, j.op, Succeeded))
  {
    hide CatalogOk, SetOperationStatus, Invalidate, Targets, ObjectKeys, Acyclic, RemoveSnapshot, DeleteDataset;
    hide CountCommittedDescendants;
    CatalogAcyclic(disk.cat);
    var marked := SetOperationStatus(disk.cat, j.op, Running);
    if j.snapshot.Some? {
      NoChildren(disk.cat, j.snapshot.value);
    }
    MarkingRows(disk.cat, j.op, Running);
    OperationCatalog(disk.cat, j.op, Running);
    GoneRows(disk.cat, j);
    NothingRefers(marked, j);
    MarkTwice(disk.cat, j.op, Running, Succeeded);
    assert disk.store - {} == disk.store;
  }

  // ---- the remaining jobs, listed again ----

  /** What the next run lists for the operations of these jobs. */
  function RelistedAll(c: Catalog, jobs: seq<Job>): seq<Job>
    requires forall m :: 0 <= m < |jobs| ==> jobs[m].op in c.operations
  {
    seq(|jobs|, m requires 0 <= m < |jobs| => Relisted(c, jobs[m].op))
  }

  /** The job is the one it was, or what it refers to is gone. */
  ghost predicate AgainFor(c: Catalog, j: Job, k: Job) {
    && k.op == j.op && (RowsRemain(c, j) ==> k == j)
    && (!RowsRemain(c, j) ==>
          && k.snapshot == None && j.dataset.Some?
          && k.dataset == if j.dataset.value in c.datasets then j.dataset else None)
  }

  lemma RelistedFor(a: Catalog, b: Catalog, j: Job)
    requires CatalogOk(a) && CatalogOk(b) && ListedJob(a, j) && ReferencesFollow(a, b)
    ensures j.op in b.operations && AgainFor(b, j, Relisted(b, j.op))
  {
    hide CatalogOk, ReferencesFollow;
    RelistedSame(a, b, j);
  }

  /** Job m of the list does the same relisted: its rows are still there, or it has lost its snapshot, would now take
      the dataset, and an earlier job of the list takes that dataset anyway. */
  ghost predicate Unharmed(c: Catalog, jobs: seq<Job>, m: nat)
    requires m < |jobs|
  {
    || RowsRemain(c, jobs[m])
    || (jobs[m].snapshot.Some? && jobs[m].dataset.Some? && jobs[m].dataset.value in c.datasets
        && exists p :: 0 <= p < m && OnDataset(jobs[p], jobs[m].dataset.value))
  }

  lemma OneMoreJob(start: Disk, jobs: seq<Job>, k: Job, m: nat)
    requires CatalogOk(start.cat) && AllOnce(start.cat, jobs) && m < |jobs| && AgainFor(start.cat, jobs[m], k)
    ensures Acyclic(ParentsOf(start.cat.snapshots))
    ensures var now := Batch(start, jobs[..m]);
      Outcome(now, k) == Outcome(now, jobs[m]) <==> Unharmed(start.cat, jobs, m)
  {
    hide CatalogOk, Outcome, Acyclic, ReferencesFollow, OnceListed;
    var j := jobs[m];
    assert AllOnce(start.cat, jobs[..m]);
    BatchKeeps(start, jobs[..m], j);
    var now := Batch(start, jobs[..m]);
    if !RowsRemain(start.cat, j) {
      RowsGone(start.cat, j);
      var d := j.dataset.value;
      BatchDatasets(start, jobs[..m], d);
      assert forall p :: 0 <= p < m ==> jobs[..m][p] == jobs[p];
      assert j.op in now.cat.operations by { OnceThere(now.cat, j); }
      if d in start.cat.datasets && d !in now.cat.datasets {
        GoneOutcome(now, j);
        GoneOutcome(now, k);
      } else {
        StaleDiffers(now, j, k);
      }
    }
  }

  lemma OnceThere(c: Catalog, j: Job)
    requires OnceListed(c, j)
    ensures j.op in c.operations
  {
  }

  lemma RowsGone(c: Catalog, j: Job)
    requires CatalogOk(c) && OnceListed(c, j) && !RowsRemain(c, j)
    ensures j.dataset.Some? && (j.snapshot.Some? ==> j.snapshot.value !in c.snapshots)
    ensures j.snapshot.None? ==> j.dataset.value !in c.datasets
  {
    hide SessionRowsOk, ChunkRowsOk, OperationRowsOk, UniqueOk, StatusOk, RefsOk, LinksOk;
  }

  /** After each job the two lists have left the same disk. */
  ghost predicate SameSoFar(start: Disk, jobs: seq<Job>, again: seq<Job>)
    requires Acyclic(ParentsOf(start.cat.snapshots)) && |again| == |jobs|
  {
    jobs == [] || (SameSoFar(start, jobs[..|jobs| - 1], again[..|jobs| - 1]) && Batch(start, again) == Batch(start, jobs))
  }

  lemma {:induction false} SoFarIsEach(start: Disk, jobs: seq<Job>, again: seq<Job>)
    requires Acyclic(ParentsOf(start.cat.snapshots)) && |again| == |jobs|
    ensures SameSoFar(start, jobs, again)
      <==> forall n :: 0 <= n <= |jobs| ==> Batch(start, again[..n]) == Batch(start, jobs[..n])
  {
    hide Batch, Acyclic;
    if jobs == [] {
      assert again[..0] == jobs[..0];
    } else {
      var k := |jobs| - 1;
      SoFarIsEach(start, jobs[..k], again[..k]);
      assert again[..k + 1] == again && jobs[..k + 1] == jobs;
      forall n | 0 <= n <= k ensures again[..k][..n] == again[..n] && jobs[..k][..n] == jobs[..n] {
      }
    }
  }

  /** Job by job the two lists leave the same disks exactly when no job of the list is harmed. */
  lemma {:induction false} SameBatches(start: Disk, jobs: seq<Job>, again: seq<Job>)
    requires CatalogOk(start.cat) && AllOnce(start.cat, jobs) && |again| == |jobs|
    requires forall m :: 0 <= m < |jobs| ==> AgainFor(start.cat, jobs[m], again[m])
    ensures Acyclic(ParentsOf(start.cat.snapshots))
    ensures SameSoFar(start, jobs, again) <==> forall m :: 0 <= m < |jobs| ==> Unharmed(start.cat, jobs, m)
    decreases |jobs|
  {
    hide CatalogOk, Outcome, Acyclic, OnceListed, AgainFor, Unharmed;
    CatalogAcyclic(start.cat);
    if jobs != [] {
      var k := |jobs| - 1;
      assert AllOnce(start.cat, jobs[..k]);
      SameBatches(start, jobs[..k], again[..k]);
      OneMoreJob(start, jobs, again[k], k);
      forall m | 0 <= m < k ensures Unharmed(start.cat, jobs[..k], m) <==> Unharmed(start.cat, jobs, m) {
        HarmIsLocal(start.cat, jobs, k, m);
      }
      if SameSoFar(start, jobs[..k], again[..k]) {
        assert Batch(start, again[..k]) == Batch(start, jobs[..k]) by { LastSame(start, jobs[..k], again[..k]); }
      }
    }
  }

  lemma LastSame(start: Disk, jobs: seq<Job>, again: seq<Job>)
    requires Acyclic(ParentsOf(start.cat.snapshots)) && |again| == |jobs| && SameSoFar(start, jobs, again)
    ensures Batch(start, again) == Batch(start, jobs)
  {
    hide Acyclic, Outcome;
  }

  lemma HarmIsLocal(c: Catalog, jobs: seq<Job>, k: nat, m: nat)
    requires m < k <= |jobs|
    ensures Unharmed(c, jobs[..k], m) <==> Unharmed(c, jobs, m)
  {
    assert forall p :: 0 <= p <= m ==> jobs[..k][p] == jobs[p];
  }

  // ---- which operations are listed again ----

  predicate Open(c: Catalog, o: Id) {
    o in c.operations && c.operations[o].status in {Queued, Running}
  }

  lemma StatusSet(c: Catalog, o: Id, status: OperationStatus)
    ensures o in SetOperationStatus(c, o, status).operations <==> o in c.operations
    ensures o in c.operations ==> SetOperationStatus(c, o, status).operations[o].status == status
  {
  }

  lemma OutcomeCloses(disk: Disk, j: Job)
    requires Acyclic(ParentsOf(disk.cat.snapshots))
    ensures !Open(Outcome(disk, j).cat, j.op)
  {
    hide Acyclic, SetOperationStatus, Invalidate, Refused, Targets, ObjectKeys, RemoveSnapshot, DeleteDataset;
    var marked := SetOperationStatus(disk.cat, j.op, Running);
    StatusSet(marked, j.op, OpFailed);
    var rows := Invalidate(marked, Targets(marked, j));
    StatusSet(rows, j.op, OpFailed);
    match RemovedRows(rows, j) {
      case Some(c) => StatusSet(c, j.op, Succeeded);
      case None =>
    }
  }

  ghost predicate DistinctOps(jobs: seq<Job>) {
    forall m, n :: 0 <= m < n < |jobs| ==> jobs[m].op != jobs[n].op
  }

  lemma OwnRemains(disk: Disk, j: Job)
    requires Acyclic(ParentsOf(disk.cat.snapshots)) && j.op in disk.cat.operations
    ensures j.op in Outcome(disk, j).cat.operations
  {
    hide Acyclic, SetOperationStatus, Refused, Targets, ObjectKeys, Blocked;
    var marked := SetOperationStatus(disk.cat, j.op, Running);
    StatusSet(disk.cat, j.op, Running);
    StatusSet(marked, j.op, OpFailed);
    var rows := Invalidate(marked, Targets(marked, j));
    StatusSet(rows, j.op, OpFailed);
    match RemovedRows(rows, j) {
      case Some(c) => StatusSet(c, j.op, Succeeded);
      case None =>
    }
  }

  /** A batch closes exactly the operations of its jobs. */
  lemma {:induction false} BatchCloses(disk: Disk, jobs: seq<Job>, o: Id)
    requires Acyclic(ParentsOf(disk.cat.snapshots)) && DistinctOps(jobs) && o in disk.cat.operations
    ensures o in Batch(disk, jobs).cat.operations
    ensures (exists m :: 0 <= m < |jobs| && jobs[m].op == o) ==> !Open(Batch(disk, jobs).cat, o)
    ensures (forall m :: 0 <= m < |jobs| ==> jobs[m].op != o) ==>
      Batch(disk, jobs).cat.operations[o].status == disk.cat.operations[o].status
  {
    hide Acyclic, Outcome;
    if jobs != [] {
      var k := |jobs| - 1;
      BatchCloses(disk, jobs[..k], o);
      var before := Batch(disk, jobs[..k]);
      OutcomeCloses(before, jobs[k]);
      OutcomeStays(before, jobs[k]);
      if o == jobs[k].op {
        OwnRemains(before, jobs[k]);
      }
      assert forall m :: 0 <= m < k ==> jobs[..k][m] == jobs[m];
      if m :| 0 <= m < k && jobs[m].op == o {
        assert jobs[..k][m].op == o;
      }
    }
  }

  // ---- the crash ----

  /** The disk a crash inside a job leaves: no row is gone yet, and only the job's own operation has moved. */
  lemma LeftRows(disk: Disk, j: Job, keys: seq<Key>, left: Disk)
    requires CatalogOk(disk.cat) && OnceListed(disk.cat, j) && Acyclic(ParentsOf(disk.cat.snapshots))
    requires LeftBehind(disk, j, keys, left)
    ensures CatalogOk(left.cat) && ReferencesFollow(disk.cat, left.cat) && Shrinks(disk.cat, left.cat)
    ensures left.cat.snapshots.Keys == disk.cat.snapshots.Keys && left.cat.datasets.Keys == disk.cat.datasets.Keys
    ensures StatusesStay(disk.cat, left.cat, j.op)
    ensures Open(disk.cat, j.op) ==> Open(left.cat, j.op)
  {
    hide CatalogOk, ReferencesFollow, SetOperationStatus, Invalidate, Targets, Acyclic, Refused, StatusesStay, OnceListed;
    var marked := SetOperationStatus(disk.cat, j.op, Running);
    SelfStays(disk.cat, j.op);
    SameFollows(disk.cat);
    OperationCatalog(disk.cat, j.op, Running);
    MarkingRows(disk.cat, j.op, Running);
    StatusSet(disk.cat, j.op, Running);
    StatusFollows(disk.cat, disk.cat, j.op, Running);
    StatusStays(disk.cat, disk.cat, j.op, Running);
    if left == disk {
    } else if left == disk.(cat := marked) {
      assert left.cat == marked;
    } else {
      MarkedCatalog(disk, j);
      MarkedFollows(disk.cat, j);
      assert Targets(marked, j) == Targets(disk.cat, j) by { Deletions.SameTargets(disk.cat, marked, j); }
      MarkedStays(disk.cat, marked, Targets(marked, j), j.op);
      InvalidatedKeys(marked, Targets(marked, j));
    }
  }

  lemma InvalidatedKeys(c: Catalog, gone: set<Id>)
    ensures var b := Invalidate(c, gone);
      && b.datasets == c.datasets && b.snapshots.Keys == c.snapshots.Keys && b.operations == c.operations
      && forall s :: s in c.snapshots ==> b.snapshots[s].dataset == c.snapshots[s].dataset
  {
  }

  lemma HarmFollowsKeys(a: Catalog, b: Catalog, jobs: seq<Job>, m: nat)
    requires a.snapshots.Keys == b.snapshots.Keys && a.datasets.Keys == b.datasets.Keys && m < |jobs|
    ensures Unharmed(a, jobs, m) <==> Unharmed(b, jobs, m)
  {
    assert RowsRemain(a, jobs[m]) <==> RowsRemain(b, jobs[m]);
  }

  /** From the crash on, the jobs as they were listed at first lead through the same disks. */
  lemma SameAhead(disk: Disk, jobs: seq<Job>, i: nat, keys: seq<Key>, left: Disk, n: nat)
    requires Acyclic(ParentsOf(disk.cat.snapshots)) && i < |jobs| && 1 <= n <= |jobs| - i
    requires Lists(Batch(disk, jobs[..i]).cat, jobs[i], keys) && LeftBehind(Batch(disk, jobs[..i]), jobs[i], keys, left)
    ensures Acyclic(ParentsOf(left.cat.snapshots)) && Batch(left, jobs[i..][..n]) == Batch(disk, jobs[..i + n])
  {
    hide Acyclic, LeftBehind, Lists, Outcome;
    var before, rest := Batch(disk, jobs[..i]), jobs[i..];
    CrashThenResume(before, jobs[i], keys, left);
    assert rest[..n] == [jobs[i]] + rest[1..n];
    OneJob(left, jobs[i]);
    OneJob(before, jobs[i]);
    BatchAppend(left, [jobs[i]], rest[1..n]);
    BatchAppend(before, [jobs[i]], rest[1..n]);
    BatchAppend(disk, jobs[..i], rest[..n]);
    assert jobs[..i] + rest[..n] == jobs[..i + n];
  }

  lemma OneJob(disk: Disk, j: Job)
    requires Acyclic(ParentsOf(disk.cat.snapshots))
    ensures Batch(disk, [j]) == Outcome(disk, j)
  {
    hide Acyclic, Outcome;
    assert [j][..0] == [];
    assert Batch(disk, []) == disk;
  }

  /** The remaining operations, and no others of the batch, are listed again after the crash. */
  lemma ListedAgain(disk: Disk, jobs: seq<Job>, i: nat, keys: seq<Key>, left: Disk, m: nat)
    requires CatalogOk(disk.cat) && Acyclic(ParentsOf(disk.cat.snapshots)) && i < |jobs| && m < |jobs| && DistinctOps(jobs)
    requires forall n :: 0 <= n < |jobs| ==> ListedJob(disk.cat, jobs[n])
    requires LeftBehind(Batch(disk, jobs[..i]), jobs[i], keys, left)
    ensures jobs[m].op in left.cat.operations
    ensures ListedJob(left.cat, Relisted(left.cat, jobs[m].op)) <==> i <= m
    ensures CatalogOk(left.cat) && ReferencesFollow(disk.cat, left.cat)
    ensures left.cat.snapshots.Keys == Batch(disk, jobs[..i]).cat.snapshots.Keys
    ensures left.cat.datasets.Keys == Batch(disk, jobs[..i]).cat.datasets.Keys
    ensures OnceListed(left.cat, jobs[m])
  {
    hide CatalogOk, Acyclic, LeftBehind, ReferencesFollow, Shrinks, OnceListed, Outcome, Batch;
    var before := Batch(disk, jobs[..i]);
    forall n | 0 <= n < |jobs| ensures OnceListed(disk.cat, jobs[n]) {
      ListedOnce(disk.cat, jobs[n]);
    }
    assert forall n :: 0 <= n < i ==> jobs[..i][n] == jobs[n];
    assert AllOnce(disk.cat, jobs[..i]) && DistinctOps(jobs[..i]);
    BatchKeeps(disk, jobs[..i], jobs[i]);
    BatchKeeps(disk, jobs[..i], jobs[m]);
    LeftRows(before, jobs[i], keys, left);
    FollowsTransitive(disk.cat, before.cat, left.cat);
    BatchCloses(disk, jobs[..i], jobs[m].op);
    BatchCloses(disk, jobs[..i], jobs[i].op);
    OnceLater(before.cat, left.cat, jobs[m]);
    if m < i {
      assert jobs[..i][m].op == jobs[m].op;
    }
    OpenIsListed(disk.cat, before.cat, left.cat, jobs, i, m);
  }

  lemma OnceLater(a: Catalog, b: Catalog, j: Job)
    requires OnceListed(a, j) && ReferencesFollow(a, b) && Shrinks(a, b)
    ensures OnceListed(b, j)
  {
  }

  lemma OpenIsListed(start: Catalog, a: Catalog, b: Catalog, jobs: seq<Job>, i: nat, m: nat)
    requires i < |jobs| && m < |jobs| && DistinctOps(jobs) && jobs[m].op in start.operations && Open(start, jobs[m].op)
    requires jobs[m].op in a.operations && OnceListed(b, jobs[m]) && StatusesStay(a, b, jobs[i].op)
    requires m < i ==> !Open(a, jobs[m].op)
    requires m >= i ==> a.operations[jobs[m].op].status == start.operations[jobs[m].op].status
    requires Open(a, jobs[i].op) ==> Open(b, jobs[i].op)
    ensures ListedJob(b, Relisted(b, jobs[m].op)) <==> i <= m
  {
    hide JobRefs;
    assert m != i ==> jobs[m].op != jobs[i].op;
  }

  /** A batch of any length is cut off by a crash at any point of its i-th job, and the operations still open are
      listed again and run in the same order. After each of them the disk is what it would have been without the crash
      if and only if every one of them still has its rows when the crash comes, or has lost its snapshot but stands
      behind a remaining operation on the whole dataset. */
  lemma BatchResumes(disk: Disk, jobs: seq<Job>, i: nat, keys: seq<Key>, left: Disk)
    requires CatalogOk(disk.cat) && Acyclic(ParentsOf(disk.cat.snapshots)) && i < |jobs| && DistinctOps(jobs)
    requires forall m :: 0 <= m < |jobs| ==> ListedJob(disk.cat, jobs[m])
    requires Lists(Batch(disk, jobs[..i]).cat, jobs[i], keys) && LeftBehind(Batch(disk, jobs[..i]), jobs[i], keys, left)
    ensures Acyclic(ParentsOf(left.cat.snapshots)) && forall m :: 0 <= m < |jobs| ==> jobs[m].op in left.cat.operations
    ensures forall m :: 0 <= m < |jobs| ==> (ListedJob(left.cat, Relisted(left.cat, jobs[m].op)) <==> i <= m)
    ensures var before, again := Batch(disk, jobs[..i]).cat, RelistedAll(left.cat, jobs[i..]);
      (forall n :: 1 <= n <= |jobs| - i ==> Batch(left, again[..n]) == Batch(disk, jobs[..i + n]))
      <==> (forall m :: 0 <= m < |jobs| - i ==> Unharmed(before, jobs[i..], m))
  {
    hide CatalogOk, Acyclic, LeftBehind, Lists, ReferencesFollow, OnceListed, Outcome, Batch, Unharmed, ListedJob, AgainFor;
    hide Relisted;
    var before, rest := Batch(disk, jobs[..i]), jobs[i..];
    forall m | 0 <= m < |jobs|
      ensures jobs[m].op in left.cat.operations && OnceListed(left.cat, jobs[m])
      ensures ListedJob(left.cat, Relisted(left.cat, jobs[m].op)) <==> i <= m
    {
      ListedAgain(disk, jobs, i, keys, left, m);
    }
    ListedAgain(disk, jobs, i, keys, left, i);
    var again := RelistedAll(left.cat, rest);
    forall m | 0 <= m < |rest|
      ensures AgainFor(left.cat, rest[m], again[m])
      ensures Unharmed(left.cat, rest, m) <==> Unharmed(before.cat, rest, m)
    {
      RelistedFor(disk.cat, left.cat, jobs[i + m]);
      HarmFollowsKeys(left.cat, before.cat, rest, m);
    }
    SameBatches(left, rest, again);
    SoFarIsEach(left, rest, again);
    forall n | 1 <= n <= |rest| ensures Batch(left, rest[..n]) == Batch(disk, jobs[..i + n]) {
      SameAhead(disk, jobs, i, keys, left, n);
    }
    assert again[..0] == rest[..0];
  }

  // ---- the same condition, told from the jobs that ran before the crash ----

  /** Going through, the first job removes rows the second refers to. */
  predicate Takes(j: Job, k: Job) {
    || (j.snapshot.Some? && j.snapshot == k.snapshot)
    || (j.snapshot.None? && j.dataset.Some? && j.dataset == k.dataset)
  }

  lemma DatasetGoesThrough(disk: Disk, j: Job)
    requires CatalogOk(disk.cat) && OnceListed(disk.cat, j) && Acyclic(ParentsOf(disk.cat.snapshots))
    requires j.snapshot.None? && j.dataset.Some?
    ensures GoesThrough(disk.cat, j)
  {
    hide CatalogOk, Acyclic, Invalidate, Targets, SetOperationStatus, OnceListed;
    var marked := SetOperationStatus(disk.cat, j.op, Running);
    MarkedCatalog(disk, j);
    DatasetDeletable(Invalidate(marked, Targets(marked, j)), j.dataset.value);
  }

  lemma OneJobTakes(disk: Disk, j: Job, k: Job)
    requires CatalogOk(disk.cat) && OnceListed(disk.cat, j) && OnceListed(disk.cat, k)
    requires Acyclic(ParentsOf(disk.cat.snapshots))
    ensures RowsRemain(Outcome(disk, j).cat, k)
       <==> RowsRemain(disk.cat, k) && !(GoesThrough(disk.cat, j) && Takes(j, k))
  {
    hide CatalogOk, Acyclic, Outcome, GoesThrough;
    OutcomeRows(disk, j);
    if j.snapshot.None? && j.dataset.Some? {
      DatasetGoesThrough(disk, j);
    }
    if j.snapshot.None? && j.dataset.None? {
      NothingRemoved(disk.cat, j);
    }
  }

  lemma NothingRemoved(c: Catalog, j: Job)
    requires j.snapshot.None? && j.dataset.None? && Acyclic(ParentsOf(c.snapshots))
    ensures !GoesThrough(c, j)
  {
    hide Acyclic;
  }

  /** A job that had its rows has lost them after a batch if and only if some job of the batch went through and took
      them. */
  lemma {:induction false} RowsLost(disk: Disk, jobs: seq<Job>, k: Job)
    requires CatalogOk(disk.cat) && Acyclic(ParentsOf(disk.cat.snapshots))
    requires AllOnce(disk.cat, jobs) && OnceListed(disk.cat, k) && RowsRemain(disk.cat, k)
    ensures RowsRemain(Batch(disk, jobs).cat, k)
       <==> forall m :: 0 <= m < |jobs| ==> !(GoesThrough(Batch(disk, jobs[..m]).cat, jobs[m]) && Takes(jobs[m], k))
  {
    hide CatalogOk, Acyclic, Outcome, GoesThrough, Takes, RowsRemain, OnceListed, ReferencesFollow, Shrinks;
    if jobs != [] {
      var n := |jobs| - 1;
      assert AllOnce(disk.cat, jobs[..n]);
      RowsLost(disk, jobs[..n], k);
      BatchKeeps(disk, jobs[..n], jobs[n]);
      BatchKeeps(disk, jobs[..n], k);
      OneJobTakes(Batch(disk, jobs[..n]), jobs[n], k);
      forall m | 0 <= m < n ensures jobs[..n][..m] == jobs[..m] && jobs[..n][m] == jobs[m] {
      }
    }
  }

  lemma ListedRows(c: Catalog, j: Job)
    requires CatalogOk(c) && ListedJob(c, j)
    ensures RowsRemain(c, j)
  {
    hide SnapshotRowsOk, SessionRowsOk, ChunkRowsOk, UniqueOk, StatusOk, RefsOk, LinksOk;
  }

  /** In particular a batch none of whose jobs takes another's rows is resumed without loss, wherever it is cut off. */
  lemma ApartResumes(disk: Disk, jobs: seq<Job>, i: nat, keys: seq<Key>, left: Disk, n: nat)
    requires CatalogOk(disk.cat) && Acyclic(ParentsOf(disk.cat.snapshots)) && i < |jobs| && DistinctOps(jobs)
    requires forall m :: 0 <= m < |jobs| ==> ListedJob(disk.cat, jobs[m])
    requires Lists(Batch(disk, jobs[..i]).cat, jobs[i], keys) && LeftBehind(Batch(disk, jobs[..i]), jobs[i], keys, left)
    requires forall m, p :: 0 <= m < i <= p < |jobs| ==>
      !(GoesThrough(Batch(disk, jobs[..i][..m]).cat, jobs[m]) && Takes(jobs[m], jobs[p]))
    requires 1 <= n <= |jobs| - i
    ensures Acyclic(ParentsOf(left.cat.snapshots)) && forall m :: 0 <= m < |jobs| ==> jobs[m].op in left.cat.operations
    ensures Batch(left, RelistedAll(left.cat, jobs[i..])[..n]) == Batch(disk, jobs[..i + n])
  {
    hide CatalogOk, Acyclic, LeftBehind, Lists, OnceListed, Outcome, Batch, ListedJob, Takes, GoesThrough, Relisted;
    BatchResumes(disk, jobs, i, keys, left);
    forall m | 0 <= m < |jobs| ensures OnceListed(disk.cat, jobs[m]) {
      ListedOnce(disk.cat, jobs[m]);
    }
    assert forall m :: 0 <= m < i ==> jobs[..i][m] == jobs[m];
    forall m | 0 <= m < |jobs| - i ensures Unharmed(Batch(disk, jobs[..i]).cat, jobs[i..], m) {
      ListedRows(disk.cat, jobs[i + m]);
      RowsLost(disk, jobs[..i], jobs[i + m]);
    }
  }
}
