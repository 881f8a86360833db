/** Deleting snapshots and datasets (internal/deletion): what a job does in all, what is on disk after each of its
    steps, and what running it again after a crash does. */
module Deletions {
  import opened Base
  import opened Manifests
  import opened Catalogs
  import opened Lineage
  import opened Streams
  import opened Machine

  /** Everything that survives a crash. */
  datatype Disk = Disk(cat: Catalog, store: Objects)

  /** Does the worker turn the job down before touching anything? */
  ghost predicate Refused(c: Catalog, j: Job)
    requires Acyclic(ParentsOf(c.snapshots))
  {
    || (j.snapshot.None? && j.dataset.None?)
    || (j.snapshot.Some? && CountCommittedDescendants(c.snapshots, j.snapshot.value) > 0)
  }

  /** The disk after the job ran to its end without a crash. */
  ghost function Outcome(disk: Disk, j: Job): Disk
    requires Acyclic(ParentsOf(disk.cat.snapshots))
  {
    var marked := SetOperationStatus(disk.cat, j.op, Running);
    if Refused(disk.cat, j) then disk.(cat := SetOperationStatus(marked, j.op, OpFailed))
    else
      Disk(FinishRows(Invalidate(marked, Targets(marked, j)), j),
           disk.store - ObjectKeys(disk.cat, Targets(disk.cat, j)))
  }

  /** The keys in the order the listing query returned them; the UNION makes them distinct. */
  ghost predicate Lists(c: Catalog, j: Job, keys: seq<Key>) {
    forall k :: k in keys <==> k in ObjectKeys(c, Targets(c, j))
  }

  function RemoveFirst(store: Objects, keys: seq<Key>, n: nat): Objects
    requires n <= |keys|
  {
    store - (set k | k in keys[..n])
  }

  /** A disk the job can leave behind when the process dies after one of its steps but before its last. */
  ghost predicate LeftBehind(disk: Disk, j: Job, keys: seq<Key>, left: Disk)
    requires Acyclic(ParentsOf(disk.cat.snapshots))
  {
    var marked := SetOperationStatus(disk.cat, j.op, Running);
    || left == disk
    || left == disk.(cat := marked)
    || (!Refused(disk.cat, j)
        && exists n :: 0 <= n <= |keys| && left == Disk(Invalidate(marked, Targets(marked, j)),
                                                        RemoveFirst(disk.store, keys, n)))
  }

  // ---- facts about the rows a job moves ----

  lemma MarkingRows(c: Catalog, o: Id, status: OperationStatus)
    ensures var m := SetOperationStatus(c, o, status);
      m.snapshots == c.snapshots && m.chunks == c.chunks && m.datasets == c.datasets && m.sessions == c.sessions
  {
  }

  lemma MarkTwice(c: Catalog, o: Id, a: OperationStatus, b: OperationStatus)
    ensures SetOperationStatus(SetOperationStatus(c, o, a), o, b) == SetOperationStatus(c, o, b)
  {
    var m := SetOperationStatus(c, o, a);
    if o in c.operations {
      assert m.operations[o := m.operations[o].(status := b)] == c.operations[o := c.operations[o].(status := b)];
    }
  }

  lemma SameTargets(a: Catalog, b: Catalog, j: Job)
    requires a.snapshots == b.snapshots && a.chunks == b.chunks
    ensures Targets(a, j) == Targets(b, j) && ObjectKeys(a, Targets(a, j)) == ObjectKeys(b, Targets(b, j))
  {
  }

  lemma InvalidatedTargets(c: Catalog, j: Job)
    ensures var d := Invalidate(c, Targets(c, j));
      && Targets(d, j) == Targets(c, j)
      && ObjectKeys(d, Targets(d, j)) == ObjectKeys(c, Targets(c, j))
      && Invalidate(d, Targets(d, j)) == d
      && ParentsOf(d.snapshots) == ParentsOf(c.snapshots)
  {
    var d := Invalidate(c, Targets(c, j));
    assert Targets(d, j) == Targets(c, j);
    assert ManifestKeys(d, Targets(d, j)) == ManifestKeys(c, Targets(c, j)) by { SameManifestKeys(c, Targets(c, j)); }
    assert Invalidate(d, Targets(c, j)).snapshots == d.snapshots;
  }

  lemma SameManifestKeys(c: Catalog, gone: set<Id>)
    ensures ManifestKeys(Invalidate(c, gone), gone) == ManifestKeys(c, gone)
  {
    var d := Invalidate(c, gone);
    forall k | k in ManifestKeys(c, gone) ensures k in ManifestKeys(d, gone) {
      var s :| s in gone && s in c.snapshots && c.snapshots[s].manifestKey == Some(k);
      assert d.snapshots[s].manifestKey == Some(k);
    }
  }

  /** Marking a snapshot does not create committed descendants of it. */
  lemma StillNotRefused(c: Catalog, j: Job)
    requires Acyclic(ParentsOf(c.snapshots)) && !Refused(c, j)
    ensures var d := Invalidate(c, Targets(c, j));
      Acyclic(ParentsOf(d.snapshots)) && !Refused(d, j)
  {
    hide Acyclic;
    InvalidatedTargets(c, j);
    if j.snapshot.Some? {
      var x := j.snapshot.value;
      var d := Invalidate(c, Targets(c, j));
      assert CommittedChildren(c.snapshots, {x}) == {};
      assert forall t :: t in CommittedChildren(d.snapshots, {x}) ==> t in CommittedChildren(c.snapshots, {x});
      assert CommittedChildren(d.snapshots, {x}) == {};
    }
  }

  // ---- crash and resume ----

  lemma ResumeMarked(disk: Disk, j: Job)
    requires Acyclic(ParentsOf(disk.cat.snapshots))
    ensures var left := disk.(cat := SetOperationStatus(disk.cat, j.op, Running));
      Acyclic(ParentsOf(left.cat.snapshots)) && Outcome(left, j) == Outcome(disk, j)
  {
    hide Acyclic, SetOperationStatus, Invalidate, FinishRows, CountCommittedDescendants;
    var marked := SetOperationStatus(disk.cat, j.op, Running);
    MarkingRows(disk.cat, j.op, Running);
    MarkTwice(disk.cat, j.op, Running, Running);
    SameTargets(disk.cat, marked, j);
  }

  lemma MarkInvalidated(c: Catalog, j: Job, gone: set<Id>)
    ensures var d := Invalidate(SetOperationStatus(c, j.op, Running), gone); SetOperationStatus(d, j.op, Running) == d
  {
    var d := Invalidate(SetOperationStatus(c, j.op, Running), gone);
    if j.op in c.operations {
      assert d.operations[j.op := d.operations[j.op]] == d.operations;
    }
  }

  lemma RemoveRest(store: Objects, keys: seq<Key>, n: nat, all: set<Key>)
    requires n <= |keys| && forall k :: k in keys ==> k in all
    ensures RemoveFirst(store, keys, n) - all == store - all
  {
    assert forall k :: k in keys[..n] ==> k in keys;
  }

  lemma ResumeInvalidated(disk: Disk, j: Job, keys: seq<Key>, n: nat)
    requires Acyclic(ParentsOf(disk.cat.snapshots)) && !Refused(disk.cat, j)
    requires Lists(disk.cat, j, keys) && n <= |keys|
    ensures var marked := SetOperationStatus(disk.cat, j.op, Running);
      var left := Disk(Invalidate(marked, Targets(marked, j)), RemoveFirst(disk.store, keys, n));
      Acyclic(ParentsOf(left.cat.snapshots)) && Outcome(left, j) == Outcome(disk, j)
  {
    hide Acyclic, SetOperationStatus, Invalidate, FinishRows, CountCommittedDescendants, ObjectKeys, Targets, Refused;
    var marked := SetOperationStatus(disk.cat, j.op, Running);
    var rows := Invalidate(marked, Targets(marked, j));
    MarkingRows(disk.cat, j.op, Running);
    SameTargets(disk.cat, marked, j);
    assert !Refused(marked, j) by { SameRefusal(disk.cat, marked, j); }
    InvalidatedTargets(marked, j);
    StillNotRefused(marked, j);
    MarkInvalidated(disk.cat, j, Targets(marked, j));
    RemoveRest(disk.store, keys, n, ObjectKeys(disk.cat, Targets(disk.cat, j)));
  }

  lemma SameRefusal(a: Catalog, b: Catalog, j: Job)
    requires a.snapshots == b.snapshots && Acyclic(ParentsOf(a.snapshots))
    ensures Refused(a, j) == Refused(b, j)
  {
  }

  /** A crash after any step of a deletion, followed by another run of the same job, ends with the catalog and
      the store the uninterrupted deletion would have produced. */
  lemma CrashThenResume(disk: Disk, j: Job, keys: seq<Key>, left: Disk)
    requires Acyclic(ParentsOf(disk.cat.snapshots)) && Lists(disk.cat, j, keys)
    requires LeftBehind(disk, j, keys, left)
    ensures Acyclic(ParentsOf(left.cat.snapshots)) && Outcome(left, j) == Outcome(disk, j)
  {
    hide Outcome, Refused, Invalidate, Targets, ObjectKeys, Acyclic;
    var marked := SetOperationStatus(disk.cat, j.op, Running);
    if left == disk {
    } else if left == disk.(cat := marked) {
      ResumeMarked(disk, j);
    } else {
      var n :| 0 <= n <= |keys|
        && left == Disk(Invalidate(marked, Targets(marked, j)), RemoveFirst(disk.store, keys, n));
      ResumeInvalidated(disk, j, keys, n);
    }
  }

  /** The job is listed again, with the same references, until its last step has been taken. */
  lemma StillListed(disk: Disk, j: Job, keys: seq<Key>, left: Disk)
    requires Acyclic(ParentsOf(disk.cat.snapshots)) && ListedJob(disk.cat, j) && LeftBehind(disk, j, keys, left)
    ensures ListedJob(left.cat, j)
  {
    hide Refused, Targets, ObjectKeys, Acyclic;
  }

  /** After the last step the job is not listed any more. */
  lemma NotListedAfter(disk: Disk, j: Job)
    requires Acyclic(ParentsOf(disk.cat.snapshots)) && ListedJob(disk.cat, j)
    ensures forall k: Job :: k.op == j.op ==> !ListedJob(Outcome(disk, j).cat, k)
  {
    hide Refused, Targets, ObjectKeys, Acyclic, Blocked;
  }
}
