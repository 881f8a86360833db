/** The cleanup worker (internal/deletion/deletion.go, internal/deletion/worker.go, internal/web/datasets.go). */
module Deleters {
  import opened Base
  import opened Manifests
  import opened Catalogs
  import opened Lineage
  import opened Streams
  import opened Machine
  import opened SafetyPurge
  import opened Storage
  import opened Envelopes
  import opened Repositories
  import opened Deletions

  /** CountCommittedDescendants: the recursive query, round by round. */
  method CountByRounds(snapshots: map<Id, Snapshot>, x: Id) returns (total: nat)
    requires Acyclic(ParentsOf(snapshots))
    ensures total == CountCommittedDescendants(snapshots, x)
  {
    hide Acyclic, Above;
    total := 0;
    var level := CommittedChildren(snapshots, {x});
    while level != {}
      invariant level <= snapshots.Keys
      invariant total + CountRounds(snapshots, level) == CountCommittedDescendants(snapshots, x)
      decreases if level == {} then 0 else 1 + |Above(ParentsOf(snapshots), level)|
    {
      AboveShrinks(snapshots, level);
      total := total + |level|;
      level := CommittedChildren(snapshots, level);
    }
  }

  /** The rows of a query in some order, each once. */
  method Listing<T(==)>(s: set<T>) returns (list: seq<T>)
    ensures forall x :: x in list <==> x in s
    ensures forall i, j :: 0 <= i < j < |list| ==> list[i] != list[j]
    ensures |list| == |s|
  {
    list := [];
    var rest := s;
    while rest != {}
      invariant forall x :: x in s <==> x in list || x in rest
      invariant forall x :: x in list ==> x !in rest
      invariant forall i, j :: 0 <= i < j < |list| ==> list[i] != list[j]
      invariant |list| + |rest| == |s|
      decreases |rest|
    {
      var x :| x in rest;
      list := list + [x];
      rest := rest - {x};
    }
  }

  function Distinct(keys: seq<Key>): set<Key> {
    set k | k in keys
  }

  /** The keys before the n-th are counted and gone; its own object may be gone too, although the call failed. */
  ghost predicate StoppedAt(before: Objects, keys: seq<Key>, n: nat, after: Objects, deleted: nat) {
    && n < |keys| && deleted == |Distinct(keys[..n])|
    && after in {RemoveFirst(before, keys, n), RemoveFirst(before, keys, n + 1)}
  }

  datatype WorkerResult = WorkerResult(processed: nat, failed: nat, objects: nat)

  class Deleter {
    const repo: Repository
    const store: EncryptedStore
    const started: Id -> int

    /** started: when each operation was queued, which no statement changes afterwards. */
    constructor (repo: Repository, store: EncryptedStore, started: Id -> int)
      ensures this.repo == repo && this.store == store && this.started == started
    {
      this.repo, this.store, this.started := repo, store, started;
    }

    ghost function OnDisk(): Disk
      reads repo, store, store.base
    {
      Disk(repo.cat, store.View())
    }

    ghost predicate Smooth()
      reads repo, store, store.base
    {
      (forall n :: store.base.plan(n) == Done) && (forall n :: !repo.broken(n))
    }

    /** deleteObjects: each key once, stopping at the first failure. */
    method DeleteObjects(keys: seq<Key>) returns (ok: bool, deleted: nat)
      requires store.Valid()
      modifies store.base
      ensures store.Valid()
      ensures exists n :: 0 <= n <= |keys| && store.View() == RemoveFirst(old(store.View()), keys, n)
      ensures !ok ==> exists n :: StoppedAt(old(store.View()), keys, n, store.View(), deleted)
      ensures ok ==> store.View() == old(store.View()) - Distinct(keys) && deleted == |Distinct(keys)|
      ensures (forall n :: store.base.plan(n) == Done) ==> ok
    {
      hide Shows, Sound, CacheTrue;
      ghost var view := store.View();
      var seen: set<Key> := {};
      deleted := 0;
      for i := 0 to |keys|
        invariant store.Valid() && seen == Distinct(keys[..i]) && deleted == |seen|
        invariant store.View() == RemoveFirst(view, keys, i)
      {
        assert Distinct(keys[..i + 1]) == Distinct(keys[..i]) + {keys[i]} by { assert keys[..i + 1] == keys[..i] + [keys[i]]; }
        RemoveNext(view, keys, i);
        if keys[i] !in seen {
          var done := store.Delete(keys[i]);
          if !done {
            assert StoppedAt(view, keys, i, store.View(), deleted);
            return false, deleted;
          }
          seen := seen + {keys[i]};
          deleted := deleted + 1;
        }
      }
      assert keys[..|keys|] == keys;
      ok := true;
    }

    /** ListSnapshotObjectKeys and ListDatasetObjectKeys: the chunk keys and manifest keys of the snapshots, each once. */
    method ListKeys(j: Job) returns (keys: seq<Key>)
      ensures Lists(repo.cat, j, keys)
    {
      var chunks, rows := repo.cat.chunks, repo.cat.snapshots;
      var gone: set<Id> := {};
      if j.snapshot.Some? {
        gone := {j.snapshot.value};
      } else if j.dataset.Some? {
        gone := set s | s in rows && rows[s].dataset == j.dataset.value;
      }
      var stored: set<Key> := set k | k in chunks && k.0 in gone :: chunks[k].key;
      var noted: set<Key> := set s | s in gone && s in rows && rows[s].manifestKey.Some? :: rows[s].manifestKey.value;
      assert stored + noted == ObjectKeys(repo.cat, Targets(repo.cat, j));
      keys := Listing(stored + noted);
    }

    /** InvalidateSnapshotForDeletion and InvalidateDatasetSnapshotsForDeletion. */
    method MarkRows(j: Job)
      modifies repo`cat
      ensures repo.cat == MarkedRows(old(repo.cat), j)
    {
      var rows := repo.cat.snapshots;
      var marked: map<Id, Snapshot> := map[];
      if j.snapshot.Some? {
        if j.snapshot.value in rows {
          marked := map[j.snapshot.value := rows[j.snapshot.value].(status := Deleting)];
        }
      } else if j.dataset.Some? {
        marked := map s | s in rows && rows[s].dataset == j.dataset.value :: rows[s].(status := Deleting);
      }
      repo.cat := repo.cat.(snapshots := rows + marked);
      assert repo.cat.snapshots == MarkedRows(old(repo.cat), j).snapshots;
    }

    /** MarkOperationRunning and UpdateOperationStatus. */
    method UpdateOperation(o: Id, status: OperationStatus)
      modifies repo`cat
      ensures repo.cat == SetOperationStatus(old(repo.cat), o, status)
    {
      if o in repo.cat.operations {
        repo.cat := repo.cat.(operations := repo.cat.operations[o := repo.cat.operations[o].(status := status)]);
      }
    }

    /** What both deletions share once they are allowed: list the keys, mark the rows, delete the objects, and
        remove the rows and close the operation in one transaction. */
    method RemoveTargets(j: Job) returns (ok: bool, deleted: nat, keys: seq<Key>)
      requires store.Valid() && (j.snapshot.Some? || j.dataset.Some?)
      modifies repo`cat, repo`calls, store.base
      ensures store.Valid() && Lists(old(repo.cat), j, keys)
      ensures Removal(old(OnDisk()), j, keys, OnDisk(), ok, deleted, Smooth())
    {
      hide Shows, Sound, CacheTrue, ObjectKeys, Targets, MarkedRows, RemoveFirst, Distinct;
      keys := ListKeys(j);
      ok := repo.Statement();
      if !ok {
        return false, 0, keys;
      }
      ok := repo.Statement();
      if !ok {
        return false, 0, keys;
      }
      MarkRows(j);
      ok, deleted := DeleteObjects(keys);
      if ok {
        ok := CloseJob(j);
      }
    }

    /** The closing transaction: the deletes, then the operation's status. */
    method CloseJob(j: Job) returns (ok: bool)
      requires j.snapshot.Some? || j.dataset.Some?
      modifies repo`cat, repo`calls
      ensures ok ==> RemovedRows(old(repo.cat), j).Some?
      ensures repo.cat == if ok then SetOperationStatus(RemovedRows(old(repo.cat), j).value, j.op, Succeeded)
                          else old(repo.cat)
      ensures (forall n :: !repo.broken(n)) ==> (ok <==> RemovedRows(old(repo.cat), j).Some?)
    {
      hide Purge, Blocked, SetOperationStatus, SessionsOf;
      var before := repo.cat;
      ok := repo.Statement();
      if ok {
        var removed: Option<Catalog>;
        if j.snapshot.Some? {
          var rows := repo.cat.sessions;
          var sessions: set<Id> := set e | e in rows && rows[e].snapshot == j.snapshot;
          assert sessions == SessionsOf(repo.cat, j.snapshot.value) by { SessionsAre(repo.cat, j.snapshot.value, sessions); }
          repo.cat := DeleteSessions(repo.cat, sessions);
          removed := DeleteSnapshot(repo.cat, j.snapshot.value);
        } else {
          removed := DeleteDataset(repo.cat, j.dataset.value);
        }
        ok := removed.Some?;
        if ok {
          repo.cat := removed.value;
          ok := repo.Statement();
        }
      }
      if ok {
        UpdateOperation(j.op, Succeeded);
      } else {
        repo.cat := before;
      }
    }

    /** DeleteSnapshotWithOperation: refused, with nothing touched, while committed snapshots depend on the target. */
    method DeleteSnapshotWithOperation(j: Job) returns (ok: bool, deleted: nat, keys: seq<Key>)
      requires store.Valid() && j.snapshot.Some? && Acyclic(ParentsOf(repo.cat.snapshots))
      modifies repo`cat, repo`calls, store.base
      ensures store.Valid() && Lists(old(repo.cat), j, keys)
      ensures CountCommittedDescendants(old(repo.cat).snapshots, j.snapshot.value) > 0 ==>
        !ok && repo.cat == old(repo.cat) && store.View() == old(store.View())
      ensures CountCommittedDescendants(old(repo.cat).snapshots, j.snapshot.value) == 0 ==>
        Removal(old(OnDisk()), j, keys, OnDisk(), ok, deleted, Smooth())
    {
      hide Shows, Sound, CacheTrue, Acyclic, CountCommittedDescendants, MarkedRows, RemovedRows, ObjectKeys;
      hide Distinct, RemoveFirst;
      var descendants := CountByRounds(repo.cat.snapshots, j.snapshot.value);
      if descendants > 0 {
        keys := ListKeys(j);
        return false, 0, keys;
      }
      ok, deleted, keys := RemoveTargets(j);
    }

    method DeleteDatasetWithOperation(j: Job) returns (ok: bool, deleted: nat, keys: seq<Key>)
      requires store.Valid() && j.snapshot.None? && j.dataset.Some?
      modifies repo`cat, repo`calls, store.base
      ensures store.Valid() && Lists(old(repo.cat), j, keys)
      ensures Removal(old(OnDisk()), j, keys, OnDisk(), ok, deleted, Smooth())
    {
      hide Shows, Sound, CacheTrue, MarkedRows, RemovedRows, Distinct, RemoveFirst;
      ok, deleted, keys := RemoveTargets(j);
    }

    /** runOperation. Uninterrupted it brings about the job's outcome; with failures on the way it stops at a disk
        the job can be resumed from, its operation marked failed if the database still answers. */
    method RunOperation(j: Job) returns (ok: bool, deleted: nat, keys: seq<Key>)
      requires store.Valid() && Acyclic(ParentsOf(repo.cat.snapshots))
      modifies repo`cat, repo`calls, store.base
      ensures store.Valid() && Lists(old(repo.cat), j, keys)
      ensures Smooth() ==> OnDisk() == Outcome(old(OnDisk()), j)
      ensures Aftermath(old(OnDisk()), j, keys, OnDisk())
      ensures ok ==> OnDisk() == Outcome(old(OnDisk()), j) && deleted == |Distinct(keys)|
      ensures Smooth() ==> (ok <==> GoesThrough(old(repo.cat), j))
    {
      hide Shows, Sound, CacheTrue, ObjectKeys, SetOperationStatus, Invalidate, RemoveFirst, Acyclic;
      hide CountCommittedDescendants, Aftermath, Outcome, Targets, RemovedRows, Distinct, MarkedRows;
      ghost var disk := OnDisk();
      ghost var c := repo.cat;
      keys := ListKeys(j);
      var up := repo.Statement();
      if !up {
        Untouched(disk, j, keys);
        return false, 0, keys;
      }
      UpdateOperation(j.op, Running);
      MarkingRows(c, j.op, Running);
      SameTargets(c, repo.cat, j);
      ok, deleted := false, 0;
      if j.snapshot.Some? {
        ok, deleted, keys := DeleteSnapshotWithOperation(j);
      } else if j.dataset.Some? {
        ok, deleted, keys := DeleteDatasetWithOperation(j);
      }
      ghost var left := OnDisk();
      RunEnds(disk, j, keys, left, ok, deleted, Smooth());
      if !ok {
        up := repo.Statement();
        if up {
          UpdateOperation(j.op, OpFailed);
        }
      }
    }

    /** The oldest of some operations. */
    method Oldest(ops: set<Id>) returns (o: Id)
      requires ops != {}
      ensures o in ops && forall p :: p in ops ==> started(o) <= started(p)
    {
      o :| o in ops;
      var rest := ops - {o};
      while rest != {}
        invariant o in ops && rest <= ops && forall p :: p in ops && p !in rest ==> started(o) <= started(p)
        decreases |rest|
      {
        var p :| p in rest;
        if started(p) < started(o) {
          o := p;
        }
        rest := rest - {p};
      }
    }

    /** ListPendingCleanupOperations: the oldest queued or running cleanup operations up to the limit, oldest first. */
    method ListPending(limit: nat) returns (jobs: seq<Job>)
      ensures forall i :: 0 <= i < |jobs| ==> ListedJob(repo.cat, jobs[i])
      ensures OldestFirst(jobs, started)
      ensures |jobs| <= limit
      ensures forall o :: o in repo.cat.operations && repo.cat.operations[o].kind == CleanupOp
                          && repo.cat.operations[o].status in {Queued, Running} && !IsListed(jobs, o) ==>
        |jobs| == limit && forall i :: 0 <= i < |jobs| ==> started(jobs[i].op) <= started(o)
    {
      hide OldestFirst, IsListed, PendingCleanup;
      var rows := repo.cat.operations;
      jobs := [];
      var rest: set<Id> := set o | o in rows && PendingCleanup(repo.cat, o);
      assert OldestFirst(jobs, started) by { NothingListed(started); }
      PendingThere(repo.cat);
      while rest != {} && |jobs| < limit
        invariant |jobs| <= limit && rows == repo.cat.operations && OldestFirst(jobs, started)
        invariant forall o :: o in rest ==> PendingCleanup(repo.cat, o)
        invariant forall o :: PendingCleanup(repo.cat, o) ==> o in rest || IsListed(jobs, o)
        invariant forall i :: 0 <= i < |jobs| ==> ListedJob(repo.cat, jobs[i])
        invariant forall i, o :: 0 <= i < |jobs| && o in rest ==> jobs[i].op != o && started(jobs[i].op) <= started(o)
        decreases |rest|
      {
        var o := Oldest(rest);
        PendingThere(repo.cat);
        ghost var before := jobs;
        var j := Job(o, rows[o].dataset, rows[o].snapshot);
        assert ListedJob(repo.cat, j) by { PendingListed(repo.cat, j); }
        OldestNext(jobs, j, started);
        jobs := jobs + [j];
        rest := rest - {o};
      }
      PendingThere(repo.cat);
    }

    /** RunOnce: the jobs are listed once, then run one after the other whatever becomes of them. */
    method RunOnce(limit: int) returns (result: WorkerResult, jobs: seq<Job>)
      requires store.Valid() && Acyclic(ParentsOf(repo.cat.snapshots))
      modifies repo`cat, repo`calls, store.base
      ensures store.Valid()
      ensures forall i :: 0 <= i < |jobs| ==> ListedJob(old(repo.cat), jobs[i])
      ensures OldestFirst(jobs, started)
      ensures result.processed + result.failed == |jobs| <= if limit <= 0 then 10 else limit
      ensures Leaves(old(OnDisk()), jobs, OnDisk())
      ensures Smooth() ==> OnDisk() == Batch(old(OnDisk()), jobs) && result == BatchResult(old(OnDisk()), jobs)
    {
      hide Shows, Sound, CacheTrue, ListedJob, Acyclic, Outcome, Aftermath, Lists, GoesThrough, Distinct, ObjectKeys;
      hide Targets;
      result := WorkerResult(0, 0, 0);
      ghost var disk := OnDisk();
      jobs := ListPending(if limit <= 0 then 10 else limit);
      assert Leaves(disk, jobs[..0], disk);
      hide Leaves;
      for i := 0 to |jobs|
        invariant store.Valid() && Acyclic(ParentsOf(repo.cat.snapshots))
        invariant result.processed + result.failed == i
        invariant Leaves(disk, jobs[..i], OnDisk())
        invariant Smooth() ==> OnDisk() == Batch(disk, jobs[..i]) && result == BatchResult(disk, jobs[..i])
      {
        ghost var before := OnDisk();
        assert jobs[..i + 1][..i] == jobs[..i];
        var ok, deleted, keys := RunOperation(jobs[i]);
        AftermathAcyclic(before, jobs[i], keys, OnDisk());
        LeavesNext(disk, jobs[..i + 1], before, keys, OnDisk());
        ListedCount(before.cat, jobs[i], keys);
        result := if ok then result.(processed := result.processed + 1, objects := result.objects + deleted)
                  else result.(failed := result.failed + 1);
      }
      assert jobs[..|jobs|] == jobs;
    }

    /** queueSnapshotDeletion: refused for a missing snapshot or one that committed snapshots depend on. */
    method QueueSnapshotDeletion(s: Id) returns (op: Option<Id>)
      requires Acyclic(ParentsOf(repo.cat.snapshots))
      modifies repo`cat, repo`issued, repo`calls
      ensures op.None? ==> repo.cat == old(repo.cat)
      ensures op.Some? ==>
        && s in old(repo.cat).snapshots && CountCommittedDescendants(old(repo.cat).snapshots, s) == 0
        && op.value !in old(repo.issued) && repo.issued == old(repo.issued) + {op.value}
        && QueuedFor(old(repo.cat), repo.cat, op.value, old(repo.cat).snapshots[s].dataset, Some(s))
      ensures (forall n :: !repo.broken(n)) ==>
        (op.Some? <==> s in old(repo.cat).snapshots && CountCommittedDescendants(old(repo.cat).snapshots, s) == 0)
    {
      hide Acyclic, CountCommittedDescendants;
      var up := repo.Statement();
      if !up || s !in repo.cat.snapshots {
        return None;
      }
      var descendants := CountByRounds(repo.cat.snapshots, s);
      if descendants > 0 {
        return None;
      }
      up := repo.Statement();
      if !up {
        return None;
      }
      var id := repo.NewId();
      var row := Operation(CleanupOp, Queued, Some(repo.cat.snapshots[s].dataset), Some(s), None);
      repo.cat := repo.cat.(operations := repo.cat.operations[id := row]);
      return Some(id);
    }

    method QueueDatasetDeletion(d: Id) returns (op: Option<Id>)
      modifies repo`cat, repo`issued, repo`calls
      ensures op.None? ==> repo.cat == old(repo.cat)
      ensures op.Some? ==>
        && d in old(repo.cat).datasets && op.value !in old(repo.issued) && repo.issued == old(repo.issued) + {op.value}
        && QueuedFor(old(repo.cat), repo.cat, op.value, d, None)
      ensures (forall n :: !repo.broken(n)) ==> (op.Some? <==> d in old(repo.cat).datasets)
    {
      var up := repo.Statement();
      if !up || d !in repo.cat.datasets {
        return None;
      }
      up := repo.Statement();
      if !up {
        return None;
      }
      var id := repo.NewId();
      var row := Operation(CleanupOp, Queued, Some(d), None, None);
      repo.cat := repo.cat.(operations := repo.cat.operations[id := row]);
      return Some(id);
    }
  }

  ghost predicate OldestFirst(jobs: seq<Job>, started: Id -> int) {
    forall i, k :: 0 <= i < k < |jobs| ==> jobs[i].op != jobs[k].op && started(jobs[i].op) <= started(jobs[k].op)
  }

  ghost predicate IsListed(jobs: seq<Job>, o: Id) {
    exists i :: 0 <= i < |jobs| && jobs[i].op == o
  }

  lemma NothingListed(started: Id -> int)
    ensures OldestFirst([], started)
  {
  }

  lemma OldestNext(jobs: seq<Job>, j: Job, started: Id -> int)
    requires OldestFirst(jobs, started)
    requires forall i :: 0 <= i < |jobs| ==> jobs[i].op != j.op && started(jobs[i].op) <= started(j.op)
    ensures OldestFirst(jobs + [j], started)
    ensures forall o :: IsListed(jobs + [j], o) <==> IsListed(jobs, o) || o == j.op
  {
    var more := jobs + [j];
    forall o ensures IsListed(more, o) <==> IsListed(jobs, o) || o == j.op {
      if IsListed(jobs, o) {
        var i :| 0 <= i < |jobs| && jobs[i].op == o;
        assert more[i].op == o;
      }
      if o == j.op {
        assert more[|jobs|].op == o;
      }
    }
  }

  lemma PendingThere(c: Catalog)
    ensures forall o :: PendingCleanup(c, o) <==>
      o in c.operations && c.operations[o].kind == CleanupOp && c.operations[o].status in {Queued, Running}
  {
  }

  lemma PendingListed(c: Catalog, j: Job)
    requires PendingCleanup(c, j.op) && j.dataset == c.operations[j.op].dataset && j.snapshot == c.operations[j.op].snapshot
    ensures ListedJob(c, j)
  {
  }

  lemma SessionsAre(c: Catalog, s: Id, sessions: set<Id>)
    requires forall e :: e in sessions <==> e in c.sessions && c.sessions[e].snapshot == Some(s)
    ensures sessions == SessionsOf(c, s)
  {
  }

  predicate PendingCleanup(c: Catalog, o: Id) {
    o in c.operations && c.operations[o].kind == CleanupOp && c.operations[o].status in {Queued, Running}
  }

  // ---- queueing ----

  /** One queued cleanup operation more, for a snapshot or the whole dataset; every other row is as it was. */
  ghost predicate QueuedFor(before: Catalog, after: Catalog, o: Id, d: Id, s: Option<Id>) {
    && o in after.operations
    && after.operations[o].kind == CleanupOp && after.operations[o].status == Queued
    && after.operations[o].dataset == Some(d) && after.operations[o].snapshot == s && after.operations[o].session == None
    && (forall p :: p != o ==> (p in after.operations <==> p in before.operations))
    && (forall p :: p != o && p in before.operations ==> after.operations[p] == before.operations[p])
    && after.datasets == before.datasets && after.snapshots == before.snapshots
    && after.sessions == before.sessions && after.chunks == before.chunks
  }

  /** Queueing is the machine's step. */
  lemma QueueingIsStep(l: Lib, w: World, after: Catalog, o: Id, d: Id, s: Option<Id>)
    requires w.mode == Serving && o !in w.issued && QueuedFor(w.cat, after, o, d, s)
    requires s.Some? ==> s.value in w.cat.snapshots && w.cat.snapshots[s.value].dataset == d
    requires s.None? ==> d in w.cat.datasets
    ensures var step := if s.Some? then QueueSnapshot(o, s.value) else QueueDataset(o, d);
      Enabled(l, w, step) && Apply(l, w, step) == w.(cat := after, issued := w.issued + {o})
  {
    hide CanStart, CanPutChunk, CanRecordChunk, CanPutManifest, CanListJobs, CanBeginJob, CanCount, CanListKeys, CanRemove;
    assert after.operations == w.cat.operations[o := Operation(CleanupOp, Queued, Some(d), s, None)];
  }

  /** The worker lists what was queued, and as nothing else: a job for that snapshot alone, or for all of the
      dataset's. */
  lemma QueuedIsListed(before: Catalog, after: Catalog, o: Id, d: Id, s: Option<Id>)
    requires QueuedFor(before, after, o, d, s)
    ensures forall j: Job :: j.op == o ==> (ListedJob(after, j) <==> j == Job(o, Some(d), s))
    ensures forall x ::
      x in Targets(after, Job(o, Some(d), s)) <==>
        if s.Some? then x == s.value else x in before.snapshots && before.snapshots[x].dataset == d
  {
  }

  /** Rows may go, links never change: no job can make the parent links cyclic. */
  lemma FewerRowsAcyclic(p: Parents, q: Parents)
    requires Acyclic(p) && q.Keys <= p.Keys && forall s :: s in q ==> q[s] == p[s]
    ensures Acyclic(q)
  {
    assert IsRank(q, Rank(p));
  }

  lemma FinishLinks(c: Catalog, j: Job)
    ensures var a := FinishRows(c, j);
      a.snapshots.Keys <= c.snapshots.Keys && forall s :: s in a.snapshots ==> a.snapshots[s] == c.snapshots[s]
  {
    hide Blocked, SessionsOf, DatasetSnapshots, DatasetSessions, SetOperationStatus, RemoveSnapshot;
    if j.snapshot.Some? {
      RemoveSnapshotIsPurge(c, j.snapshot.value);
    }
    MarkingRows(c, j.op, OpFailed);
    match RemovedRows(c, j) {
      case Some(r) => MarkingRows(r, j.op, Succeeded);
      case None =>
    }
  }

  lemma OutcomeAcyclic(disk: Disk, j: Job)
    requires Acyclic(ParentsOf(disk.cat.snapshots))
    ensures Acyclic(ParentsOf(Outcome(disk, j).cat.snapshots))
  {
    hide Acyclic, SetOperationStatus, FinishRows, Invalidate, Targets, ObjectKeys, Refused, ParentsOf;
    var marked := SetOperationStatus(disk.cat, j.op, Running);
    MarkingRows(disk.cat, j.op, Running);
    MarkingRows(marked, j.op, OpFailed);
    if !Refused(disk.cat, j) {
      var rows := Invalidate(marked, Targets(marked, j));
      InvalidatedTargets(marked, j);
      FinishLinks(rows, j);
      RowsParents(rows.snapshots, FinishRows(rows, j).snapshots);
      FewerRowsAcyclic(ParentsOf(rows.snapshots), ParentsOf(FinishRows(rows, j).snapshots));
    }
  }

  lemma RowsParents(a: map<Id, Snapshot>, b: map<Id, Snapshot>)
    requires b.Keys <= a.Keys && forall s :: s in b ==> b[s] == a[s]
    ensures var p, q := ParentsOf(a), ParentsOf(b); q.Keys <= p.Keys && forall s :: s in q ==> q[s] == p[s]
  {
  }

  lemma AftermathAcyclic(disk: Disk, j: Job, keys: seq<Key>, end: Disk)
    requires Acyclic(ParentsOf(disk.cat.snapshots)) && Aftermath(disk, j, keys, end)
    ensures Acyclic(ParentsOf(end.cat.snapshots))
  {
    hide Acyclic, Outcome, Refused, SetOperationStatus, Invalidate, Targets, ParentsOf;
    OutcomeAcyclic(disk, j);
    if end != Outcome(disk, j) {
      var left :| LeftBehind(disk, j, keys, left)
                  && end in {left, left.(cat := SetOperationStatus(left.cat, j.op, OpFailed))};
      var marked := SetOperationStatus(disk.cat, j.op, Running);
      MarkingRows(disk.cat, j.op, Running);
      InvalidatedTargets(marked, j);
      MarkingRows(left.cat, j.op, OpFailed);
    }
  }

  /** Does the job remove its rows, rather than being refused or stopped by a foreign key? */
  ghost predicate GoesThrough(c: Catalog, j: Job)
    requires Acyclic(ParentsOf(c.snapshots))
  {
    !Refused(c, j) && RemovedRows(MarkedRows(SetOperationStatus(c, j.op, Running), j), j).Some?
  }

  lemma ListedCount(c: Catalog, j: Job, keys: seq<Key>)
    requires Lists(c, j, keys)
    ensures Distinct(keys) == ObjectKeys(c, Targets(c, j))
  {
  }

  /** Jobs that went through, jobs that did not, and the objects the former named. */
  ghost function BatchResult(disk: Disk, jobs: seq<Job>): WorkerResult
    requires Acyclic(ParentsOf(disk.cat.snapshots))
  {
    if jobs == [] then WorkerResult(0, 0, 0)
    else
      var k := |jobs| - 1;
      var before, sofar := Batch(disk, jobs[..k]), BatchResult(disk, jobs[..k]);
      if GoesThrough(before.cat, jobs[k])
      then sofar.(processed := sofar.processed + 1,
                  objects := sofar.objects + |ObjectKeys(before.cat, Targets(before.cat, jobs[k]))|)
      else sofar.(failed := sofar.failed + 1)
  }

  /** The disk after all jobs of a batch, each run on what the one before left. */
  ghost function Batch(disk: Disk, jobs: seq<Job>): (end: Disk)
    requires Acyclic(ParentsOf(disk.cat.snapshots))
    ensures Acyclic(ParentsOf(end.cat.snapshots))
  {
    if jobs == [] then disk
    else
      var before := Batch(disk, jobs[..|jobs| - 1]);
      OutcomeAcyclic(before, jobs[|jobs| - 1]);
      Outcome(before, jobs[|jobs| - 1])
  }

  function MarkedRows(c: Catalog, j: Job): Catalog {
    Invalidate(c, Targets(c, j))
  }

  /** The rows once the deletes went through, or None when a foreign key stops them. */
  function RemovedRows(c: Catalog, j: Job): Option<Catalog> {
    if j.snapshot.Some? then RemoveSnapshot(c, j.snapshot.value)
    else if j.dataset.Some? then DeleteDataset(c, j.dataset.value)
    else None
  }

  /** How the removal of a job's targets can end: done, with the rows gone, the operation closed and every listed
      object deleted; or stopped before the rows were marked, or after some of the objects were deleted. When no
      call fails it is done exactly if no foreign key stops it. */
  ghost predicate Removal(disk: Disk, j: Job, keys: seq<Key>, end: Disk, ok: bool, deleted: nat, smooth: bool) {
    var marked := MarkedRows(disk.cat, j);
    && (ok ==>
          && RemovedRows(marked, j).Some? && deleted == |Distinct(keys)|
          && end == Disk(SetOperationStatus(RemovedRows(marked, j).value, j.op, Succeeded), disk.store - Distinct(keys)))
    && (!ok ==>
          || end == disk
          || (end.cat == marked && exists n :: 0 <= n <= |keys| && end.store == RemoveFirst(disk.store, keys, n)))
    && (smooth ==>
          && (ok <==> RemovedRows(marked, j).Some?)
          && (!ok ==> end == Disk(marked, disk.store - Distinct(keys))))
  }

  /** What a job that met failures can leave: its outcome, or a disk it can be resumed from, with or without a
      failed mark on the operation. */
  ghost predicate Aftermath(disk: Disk, j: Job, keys: seq<Key>, end: Disk)
    requires Acyclic(ParentsOf(disk.cat.snapshots))
  {
    || end == Outcome(disk, j)
    || (exists left :: LeftBehind(disk, j, keys, left)
                       && end in {left, left.(cat := SetOperationStatus(left.cat, j.op, OpFailed))})
  }

  /** What a batch that met failures can leave: each job ran on what the one before left. */
  ghost predicate Leaves(disk: Disk, jobs: seq<Job>, end: Disk) {
    if jobs == [] then end == disk
    else
      var k := |jobs| - 1;
      exists before, keys ::
        && Leaves(disk, jobs[..k], before) && Acyclic(ParentsOf(before.cat.snapshots))
        && Lists(before.cat, jobs[k], keys) && Aftermath(before, jobs[k], keys, end)
  }

  lemma LeavesNext(disk: Disk, jobs: seq<Job>, before: Disk, keys: seq<Key>, end: Disk)
    requires jobs != [] && Leaves(disk, jobs[..|jobs| - 1], before) && Acyclic(ParentsOf(before.cat.snapshots))
    requires Lists(before.cat, jobs[|jobs| - 1], keys) && Aftermath(before, jobs[|jobs| - 1], keys, end)
    ensures Leaves(disk, jobs, end)
  {
    hide Acyclic, Aftermath, Lists;
  }

  lemma Untouched(disk: Disk, j: Job, keys: seq<Key>)
    requires Acyclic(ParentsOf(disk.cat.snapshots))
    ensures Aftermath(disk, j, keys, disk)
  {
    hide Outcome, Refused, Acyclic, Targets;
    assert LeftBehind(disk, j, keys, disk);
  }

  /** The disk before the operation is marked failed, or after it was closed. */
  lemma RunEnds(disk: Disk, j: Job, keys: seq<Key>, left: Disk, ok: bool, deleted: nat, smooth: bool)
    requires Acyclic(ParentsOf(disk.cat.snapshots)) && Lists(disk.cat, j, keys)
    requires Refused(disk.cat, j) ==> !ok && left == disk.(cat := SetOperationStatus(disk.cat, j.op, Running))
    requires !Refused(disk.cat, j) ==>
      Removal(disk.(cat := SetOperationStatus(disk.cat, j.op, Running)), j, keys, left, ok, deleted, smooth)
    ensures ok ==> left == Outcome(disk, j)
    ensures !ok && smooth ==> left.(cat := SetOperationStatus(left.cat, j.op, OpFailed)) == Outcome(disk, j)
    ensures !ok ==>
      && Aftermath(disk, j, keys, left)
      && Aftermath(disk, j, keys, left.(cat := SetOperationStatus(left.cat, j.op, OpFailed)))
    ensures ok ==> Aftermath(disk, j, keys, left)
  {
    hide Acyclic, SetOperationStatus, Invalidate, Refused, RemoveSnapshot, DeleteDataset, ObjectKeys, Targets;
    var c := SetOperationStatus(disk.cat, j.op, Running);
    assert Distinct(keys) == ObjectKeys(disk.cat, Targets(disk.cat, j));
    if !ok {
      assert LeftBehind(disk, j, keys, left);
    }
  }

  lemma RemoveNext(view: Objects, keys: seq<Key>, i: nat)
    requires i < |keys|
    ensures RemoveFirst(view, keys, i + 1) == RemoveFirst(view, keys, i) - {keys[i]}
    ensures keys[i] in keys[..i] ==> RemoveFirst(view, keys, i + 1) == RemoveFirst(view, keys, i)
  {
    assert keys[..i + 1] == keys[..i] + [keys[i]];
  }
}
