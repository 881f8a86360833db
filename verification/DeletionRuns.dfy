/** The worker's steps in the machine, seen from the disk: every point a crash can hit is a disk the job resumes
    from, and the last step brings about the job's outcome. */
module DeletionRuns {
  import opened Base
  import opened Manifests
  import opened Catalogs
  import opened Lineage
  import opened Streams
  import opened Machine
  import opened Invariant
  import opened Theorems
  import opened Deletions

  function DiskOf(w: World): Disk {
    Disk(w.cat, w.store)
  }

  ghost predicate IsListing(c: Catalog, j: Job, keys: seq<Key>) {
    Acyclic(ParentsOf(c.snapshots)) && !Refused(c, j) && Lists(c, j, keys)
  }

  /** The job was begun on the first disk and the world has got so far with it. */
  ghost predicate Midway(disk: Disk, j: Job, w: World)
    requires Acyclic(ParentsOf(disk.cat.snapshots))
  {
    var marked := SetOperationStatus(disk.cat, j.op, Running);
    && w.jobs != [] && w.deletion.Some? && w.deletion.value.job == j && (j.snapshot.Some? || j.dataset.Some?)
    && (match w.deletion.value.at
        case Begun => DiskOf(w) == disk.(cat := marked)
        case Counted => DiskOf(w) == disk.(cat := marked) && !Refused(disk.cat, j)
        case Listed(keys) => DiskOf(w) == disk.(cat := marked) && IsListing(disk.cat, j, keys)
        case Removing(keys, n) =>
          && n <= |keys| && IsListing(disk.cat, j, keys)
          && DiskOf(w) == Disk(Invalidate(marked, Targets(marked, j)), RemoveFirst(disk.store, keys, n)))
  }

  /** A worker's step that carries the job on. */
  predicate CarriesOn(step: Step) {
    step.CountDescendants? || step.ListKeys? || step.InvalidateRows? || step.RemoveObject? || step.FinishJob?
  }

  lemma BegunMidway(w: World)
    requires CanBeginJob(w) && Acyclic(ParentsOf(w.cat.snapshots))
    requires w.jobs[0].snapshot.Some? || w.jobs[0].dataset.Some?
    ensures Midway(DiskOf(w), w.jobs[0], JobBegun(w))
  {
    hide Acyclic, SetOperationStatus, Refused, Targets;
  }

  lemma CountedMidway(disk: Disk, j: Job, w: World)
    requires Acyclic(ParentsOf(disk.cat.snapshots)) && Midway(disk, j, w) && CanCount(w)
    ensures var w' := JobCounted(w);
      if w'.deletion.Some? then Midway(disk, j, w') else DiskOf(w') == Outcome(disk, j)
  {
    hide Acyclic, SetOperationStatus, Targets, CountCommittedDescendants, Invalidate, FinishRows, ObjectKeys;
    MarkingRows(disk.cat, j.op, Running);
  }

  lemma ListedMidway(disk: Disk, j: Job, w: World, keys: seq<Key>)
    requires Acyclic(ParentsOf(disk.cat.snapshots)) && Midway(disk, j, w) && CanListKeys(w, keys)
    ensures Midway(disk, j, KeysListed(w, keys))
  {
    hide Acyclic, SetOperationStatus, Targets, Refused, ObjectKeys;
    MarkingRows(disk.cat, j.op, Running);
    SameTargets(disk.cat, SetOperationStatus(disk.cat, j.op, Running), j);
  }

  lemma InvalidatedMidway(disk: Disk, j: Job, w: World)
    requires Acyclic(ParentsOf(disk.cat.snapshots)) && Midway(disk, j, w) && w.deletion.value.at.Listed?
    ensures Midway(disk, j, RowsInvalidated(w))
  {
    hide Acyclic, SetOperationStatus, Targets, Refused, Lists, Invalidate;
    assert disk.store - {} == disk.store;
    var keys := w.deletion.value.at.keys;
    assert RemoveFirst(disk.store, keys, 0) == disk.store;
  }

  lemma RemovedMidway(disk: Disk, j: Job, w: World)
    requires Acyclic(ParentsOf(disk.cat.snapshots)) && Midway(disk, j, w) && CanRemove(w)
    ensures Midway(disk, j, ObjectRemoved(w))
  {
    hide Acyclic, SetOperationStatus, Targets, Refused, Lists, Invalidate;
    var at := w.deletion.value.at;
    assert at.keys[..at.next + 1] == at.keys[..at.next] + [at.keys[at.next]];
    assert RemoveFirst(disk.store, at.keys, at.next + 1) == RemoveFirst(disk.store, at.keys, at.next) - {at.keys[at.next]};
  }

  lemma FinishedOutcome(disk: Disk, j: Job, w: World)
    requires Acyclic(ParentsOf(disk.cat.snapshots)) && Midway(disk, j, w) && CanFinish(w)
    ensures DiskOf(JobFinished(w)) == Outcome(disk, j)
  {
    hide Acyclic, SetOperationStatus, Targets, Refused, Invalidate, FinishRows, ObjectKeys;
    var keys := w.deletion.value.at.keys;
    assert keys[..|keys|] == keys;
    assert (set k | k in keys) == ObjectKeys(disk.cat, Targets(disk.cat, j));
  }

  /** Step by step the job stays midway, until the step that ends it, which leaves the outcome. */
  lemma StepMidway(l: Lib, disk: Disk, j: Job, w: World, step: Step)
    requires Acyclic(ParentsOf(disk.cat.snapshots)) && Midway(disk, j, w)
    requires w.mode == Serving && Enabled(l, w, step) && CarriesOn(step)
    ensures var w' := Apply(l, w, step);
      if w'.deletion.Some? then Midway(disk, j, w') else DiskOf(w') == Outcome(disk, j)
  {
    hide Midway, Outcome, Acyclic, CanListKeys, CanRemove, CanFinish, CanCount, JobCounted, RowsInvalidated;
    match step {
      case CountDescendants => CountedMidway(disk, j, w);
      case ListKeys(keys) => ListedMidway(disk, j, w, keys);
      case InvalidateRows => InvalidatedMidway(disk, j, w); KeepsDeletion(w);
      case RemoveObject => RemovedMidway(disk, j, w);
      case FinishJob => FinishedOutcome(disk, j, w);
    }
  }

  lemma KeepsDeletion(w: World)
    requires w.deletion.Some? && w.deletion.value.at.Listed?
    ensures RowsInvalidated(w).deletion.Some?
  {
  }

  /** A crash at any point of the job: running the job again ends as the job would have without the crash, and as
      long as it has not ended the worker still lists it. */
  lemma CrashAnywhere(disk: Disk, j: Job, w: World)
    requires Acyclic(ParentsOf(disk.cat.snapshots)) && Midway(disk, j, w) && ListedJob(disk.cat, j)
    ensures Acyclic(ParentsOf(w.cat.snapshots)) && Outcome(DiskOf(Crashed(w)), j) == Outcome(disk, j)
    ensures ListedJob(Crashed(w).cat, j)
  {
    hide Acyclic, Outcome, Refused, Targets, Invalidate, SetOperationStatus, ListedJob, ObjectKeys, RemoveFirst;
    var keys := SomeListing(disk, j, w);
    assert LeftBehind(disk, j, keys, DiskOf(w));
    CrashThenResume(disk, j, keys, DiskOf(w));
    StillListed(disk, j, keys, DiskOf(w));
  }

  /** The keys the worker has listed, or will. */
  lemma SomeListing(disk: Disk, j: Job, w: World) returns (keys: seq<Key>)
    requires Acyclic(ParentsOf(disk.cat.snapshots)) && Midway(disk, j, w)
    ensures Lists(disk.cat, j, keys) && (w.deletion.value.at.Removing? ==> keys == w.deletion.value.at.keys)
  {
    hide Acyclic, SetOperationStatus, Refused, Targets, ObjectKeys;
    if w.deletion.value.at.Removing? {
      keys := w.deletion.value.at.keys;
    } else {
      keys := InSomeOrder(ObjectKeys(disk.cat, Targets(disk.cat, j)));
    }
  }

  lemma {:induction false} InSomeOrder(s: set<Key>) returns (keys: seq<Key>)
    ensures forall k :: k in keys <==> k in s
    decreases |s|
  {
    if s == {} {
      keys := [];
    } else {
      var k :| k in s;
      var rest := InSomeOrder(s - {k});
      keys := [k] + rest;
    }
  }

  // ---- nothing a committed snapshot needs is among the keys ----

  /** In every reachable state, each key a deletion has removed or is going to remove belongs to no committed
      snapshot: it is neither its manifest's nor one of its chunks'. */
  lemma RemovedKeysForeign(l: Lib, w: World, s: Id, k: Key)
    requires Reachable(l, w) && w.deletion.Some? && w.deletion.value.at.Removing? && k in w.deletion.value.at.keys
    requires s in w.cat.snapshots && w.cat.snapshots[s].status == Committed
    ensures k !in ObjectKeys(w.cat, {s})
  {
    ReachableInv(l, w);
    hide Reachable, CommittedOk, LiveOk, ModeOk, IssuedOk, WorkerOk, ObjectKeys;
    hide SessionRowsOk, OperationRowsOk, UniqueOk, StatusOk, RefsOk, LinksOk;
    if k in ObjectKeys(w.cat, {s}) {
      KeyNames(w.cat, s, k);
      NamedTarget(w, s, k);
    }
  }

  /** A snapshot whose name is on a listed key is one the job has marked. */
  lemma NamedTarget(w: World, s: Id, k: Key)
    requires CatalogOk(w.cat) && WorkerOk(w)
    requires w.deletion.Some? && w.deletion.value.at.Removing? && k in w.deletion.value.at.keys && s in w.cat.snapshots
    requires k.ds == w.cat.datasets[w.cat.snapshots[s].dataset] && k.snapshot == w.cat.snapshots[s].name
    ensures w.cat.snapshots[s].status == Deleting
  {
    hide SessionRowsOk, ChunkRowsOk, OperationRowsOk, StatusOk, RefsOk, LinksOk, UploadingInto, ChildlessOk;
    assert s in Targets(w.cat, w.deletion.value.job);
  }

  lemma KeyNames(c: Catalog, s: Id, k: Key)
    requires SnapshotRowsOk(c.datasets, c.snapshots) && ChunkRowsOk(c.datasets, c.snapshots, c.sessions, c.chunks)
    requires s in c.snapshots && k in ObjectKeys(c, {s})
    ensures k.ds == c.datasets[c.snapshots[s].dataset] && k.snapshot == c.snapshots[s].name
  {
  }
}
