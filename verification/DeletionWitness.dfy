/** Runs from the empty service in which deletions go further than they were queued for, or stop halfway
    (internal/deletion, migrations/000001_initial.sql). */
module DeletionWitness {
  import opened Base
  import opened Manifests
  import opened Catalogs
  import opened Lineage
  import opened Streams
  import opened Machine
  import opened Invariant
  import opened SafetyStart
  import opened IngestSteps
  import opened Ingest
  import opened Deletions
  import opened DeletionRuns
  import opened Cleanups
  import opened Batches
  import opened JobRuns
  import opened UploadFrames
  import opened Witness
  import Keys

  lemma TookRun(l: Lib, steps: seq<Step>, w: World, more: seq<Step>, w': World)
    requires Runs(l, INITIAL, steps, w) && IsRun(l, w, more) && After(l, w, more) == w' && Inv(l, w')
    ensures Runs(l, INITIAL, steps + more, w')
  {
    hide Inv, IsRun, After;
    RunAppend(l, INITIAL, steps, more);
  }

  lemma TookQueue(l: Lib, steps: seq<Step>, w: World, op: Id, s: Id)
    requires Runs(l, INITIAL, steps, w) && w.mode == Serving && op !in w.issued && s in w.cat.snapshots
    ensures Runs(l, INITIAL, steps + [QueueSnapshot(op, s)], JobQueued(w, op, w.cat.snapshots[s].dataset, Some(s)))
  {
    hide Runs, JobQueued;
    Took(l, INITIAL, steps, w, QueueSnapshot(op, s));
  }

  lemma TookList(l: Lib, steps: seq<Step>, w: World, jobs: seq<Job>)
    requires Runs(l, INITIAL, steps, w) && w.mode == Serving && CanListJobs(w, jobs)
    ensures Runs(l, INITIAL, steps + [ListJobs(jobs)], w.(jobs := jobs))
  {
    hide Runs, ListedJob;
    Took(l, INITIAL, steps, w, ListJobs(jobs));
  }

  lemma TookRestart(l: Lib, steps: seq<Step>, w: World)
    requires Runs(l, INITIAL, steps, w)
    ensures Runs(l, INITIAL, steps + [Crash, Serve], Crashed(w).(mode := Serving))
  {
    hide Runs;
    Took(l, INITIAL, steps, w, Crash);
    Took(l, INITIAL, steps + [Crash], Crashed(w), Serve);
    assert steps + [Crash] + [Serve] == steps + [Crash, Serve];
  }

  /** The listed job, carried out. */
  lemma TookJob(l: Lib, before: seq<Step>, given: World) returns (steps: seq<Step>, w: World)
    requires Runs(l, INITIAL, before, given) && given.mode == Serving && CanBeginJob(given)
    ensures Runs(l, INITIAL, before + steps, w) && OfJob(steps) && EndedJob(given, w)
    ensures Acyclic(ParentsOf(given.cat.snapshots)) && DiskOf(w) == Outcome(DiskOf(given), given.jobs[0])
  {
    hide Runs, Outcome, Inv, IsRun, After, CanBeginJob, Acyclic, EndedJob;
    RunsAre(l, INITIAL, before, given);
    InvParts(l, given);
    steps, w := JobRun(l, given);
    TookRun(l, before, given, steps, w);
  }

  // ---- two operations on one snapshot ----

  function SecondStart(req: Request): Start {
    Start(0, req, None, None, 4, 5, 6, 0)
  }

  /** Nothing refers to any snapshot as parent or base. */
  ghost predicate Rootless(c: Catalog) {
    && (forall s :: s in c.snapshots ==> c.snapshots[s].parent == None)
    && (forall e :: e in c.sessions ==> c.sessions[e].base == None)
  }

  /** Two snapshots are stored in one dataset. */
  ghost predicate TwoStored(w: World, req: Request) {
    && w.mode == Serving && w.live == map[] && w.jobs == [] && w.deletion == None && w.issued == {0, 1, 2, 3, 4, 5, 6}
    && w.cat.datasets == map[0 := req.ds] && w.cat.snapshots.Keys == {1, 4} && w.cat.operations.Keys == {3, 6}
    && (forall s :: s in {1, 4} ==>
          w.cat.snapshots[s].dataset == 0 && w.cat.snapshots[s].status == Committed)
    && Rootless(w.cat)
  }

  lemma SecondAdmitted(w: World, a: Request, b: Request)
    requires OneStored(w, a) && b.ds == a.ds && b.name != a.name && b.base == "" && SafeNames(b)
    ensures CanStart(w, SecondStart(b))
  {
    hide Keys.ValidNames, Keys.DotFree;
  }

  lemma SecondStarted(w: World, a: Request, b: Request)
    requires OneStored(w, a) && b.ds == a.ds
    ensures var v := Started(w, SecondStart(b));
      && v.live.Keys == {5} && v.jobs == [] && v.deletion == None && v.issued == {0, 1, 2, 3, 4, 5, 6}
      && v.cat.datasets == map[0 := a.ds] && v.cat.snapshots.Keys == {1, 4} && v.cat.operations.Keys == {3, 6}
      && v.cat.snapshots[1].dataset == 0 && v.cat.snapshots[1].status == Committed && Rootless(v.cat)
  {
  }

  lemma BothStored(l: Lib, a: Request, b: Request, data: Bytes, more: Bytes) returns (steps: seq<Step>, w: World)
    requires Lawful(l) && SafeNames(a) && SafeNames(b) && b.ds == a.ds && b.name != a.name && a.base == b.base == ""
    requires data != [] && more != []
    ensures Runs(l, INITIAL, steps, w) && TwoStored(w, a)
    ensures w.cat.snapshots[4].manifestKey == Some(ManifestKey(b.ds, b.name))
    ensures Restored(l, w.store, ManifestKey(b.ds, b.name)) == Some(more)
  {
    hide Runs, AtCommit, Restored, CanStart, Kept, Started, OneStored, SafeNames;
    steps, w := FirstStored(l, a, data);
    var t := SecondStart(b);
    SecondAdmitted(w, a, b);
    SecondStarted(w, a, b);
    var start := Started(w, t);
    assert w.mode == Serving by { ServingStored(w, a); }
    steps, w := ToCommit(l, steps, w, t, more);
    var ready := w;
    steps, w := Commits(l, steps, w, t, more);
    KeptAgain(start, ready, w, t);
    StoredSecond(w, start, a, b);
  }

  lemma ServingStored(w: World, a: Request)
    requires OneStored(w, a)
    ensures w.mode == Serving
  {
  }

  lemma StoredSecond(w: World, start: World, a: Request, b: Request)
    requires Kept(start, w, SecondStart(b)) && w.mode == Serving && 5 !in w.live
    requires start.live.Keys == {5} && start.jobs == [] && start.deletion == None && start.issued == {0, 1, 2, 3, 4, 5, 6}
    requires start.cat.datasets == map[0 := a.ds] && start.cat.snapshots.Keys == {1, 4} && start.cat.operations.Keys == {3, 6}
    requires start.cat.snapshots[1].dataset == 0 && start.cat.snapshots[1].status == Committed
    requires Rootless(start.cat)
    requires 4 in w.cat.snapshots && w.cat.snapshots[4].dataset == 0 && w.cat.snapshots[4].status == Committed
    ensures TwoStored(w, a)
  {
    assert w.live == w.live - {5} == start.live - {5} == map[];
  }

  lemma RootlessFree(c: Catalog, j: Job, s: Id)
    requires Rootless(c) && Acyclic(ParentsOf(c.snapshots)) && j.snapshot == Some(s)
    ensures !Refused(c, j) && !Blocked(c, {s}, SessionsOf(c, s))
  {
    hide Acyclic;
    assert CommittedChildren(c.snapshots, {s}) == {};
  }

  /** Two cleanup operations for snapshot 1, both listed. */
  ghost predicate BothListed(w: World) {
    && w.mode == Serving && w.live == map[] && w.deletion == None
    && w.jobs == [Job(7, Some(0), Some(1)), Job(8, Some(0), Some(1))]
    && ListedJob(w.cat, w.jobs[0]) && ListedJob(w.cat, w.jobs[1])
    && 0 in w.cat.datasets && Rootless(w.cat)
    && (forall s :: s in {1, 4} ==> s in w.cat.snapshots && w.cat.snapshots[s].dataset == 0)
  }

  lemma QueuedTwice(l: Lib, first: seq<Step>, given: World, req: Request) returns (steps: seq<Step>, w: World)
    requires Runs(l, INITIAL, first, given) && TwoStored(given, req)
    ensures Runs(l, INITIAL, first + steps, w) && BothListed(w)
    ensures steps == [QueueSnapshot(7, 1), QueueSnapshot(8, 1), ListJobs([Job(7, Some(0), Some(1)), Job(8, Some(0), Some(1))])]
  {
    hide Runs;
    TookQueue(l, first, given, 7, 1);
    var w1 := JobQueued(given, 7, 0, Some(1));
    TookQueue(l, first + [QueueSnapshot(7, 1)], w1, 8, 1);
    var w2 := JobQueued(w1, 8, 0, Some(1));
    var jobs := [Job(7, Some(0), Some(1)), Job(8, Some(0), Some(1))];
    TookList(l, first + [QueueSnapshot(7, 1)] + [QueueSnapshot(8, 1)], w2, jobs);
    w := w2.(jobs := jobs);
    steps := [QueueSnapshot(7, 1), QueueSnapshot(8, 1), ListJobs(jobs)];
    assert first + [QueueSnapshot(7, 1)] + [QueueSnapshot(8, 1)] + [ListJobs(jobs)] == first + steps;
  }

  /** The first of the two is carried out: its snapshot is gone, the other operation is still queued, for nothing. */
  lemma FirstDone(l: Lib, before: seq<Step>, given: World) returns (steps: seq<Step>, w: World)
    requires Runs(l, INITIAL, before, given) && BothListed(given)
    ensures Runs(l, INITIAL, before + steps, w) && OfJob(steps) && w.live == map[]
    ensures CatalogOk(w.cat) && 8 in w.cat.operations && Relisted(w.cat, 8) == Job(8, Some(0), None)
    ensures ListedJob(w.cat, Relisted(w.cat, 8))
    ensures 4 in w.cat.snapshots && w.cat.snapshots[4].dataset == 0
  {
    hide Runs, Inv, Outcome, Acyclic, CatalogOk, OnlySnapshot, ReferencesFollow, Refused, Blocked, ListedJob;
    RunsAre(l, INITIAL, before, given);
    InvParts(l, given);
    var disk := DiskOf(given);
    var j, k := given.jobs[0], given.jobs[1];
    assert CanBeginJob(given);
    steps, w := TookJob(l, before, given);
    RootlessFree(given.cat, j, 1);
    assert j.op in given.cat.operations && k.op in given.cat.operations by {
      ListedThere(given.cat, j);
      ListedThere(given.cat, k);
    }
    DeletionCompletes(disk, j, 1);
    SecondCleanupTakesDataset(disk, j, k, 1, 0);
    OutcomeFollows(disk, j);
    RelistedSame(given.cat, w.cat, k);
    StaysQueued(disk, j, k);
    RelistedOp(w.cat, 8);
    assert w.cat.snapshots[4] == given.cat.snapshots[4] by { OtherSnapshot(disk, j, 1, 4); }
  }

  lemma ListedThere(c: Catalog, j: Job)
    requires ListedJob(c, j)
    ensures j.op in c.operations
  {
  }

  lemma OtherSnapshot(disk: Disk, j: Job, s: Id, t: Id)
    requires CatalogOk(disk.cat) && j.snapshot == Some(s) && t != s && t in disk.cat.snapshots
    ensures t in Outcome(disk, j).cat.snapshots && Outcome(disk, j).cat.snapshots[t] == disk.cat.snapshots[t]
  {
    hide CatalogOk, Outcome;
    SnapshotBranch(disk, j, s);
  }

  lemma RelistedDone(l: Lib, before: seq<Step>, given: World) returns (steps: seq<Step>, w: World)
    requires Runs(l, INITIAL, before, given) && given.mode == Serving && given.live == map[] && given.deletion == None
    requires CatalogOk(given.cat) && given.jobs == [Job(8, Some(0), None)]
    requires 4 in given.cat.snapshots && given.cat.snapshots[4].dataset == 0
    ensures Runs(l, INITIAL, before + steps, w) && OfJob(steps)
    ensures 0 !in w.cat.datasets && 4 !in w.cat.snapshots
  {
    hide Runs, Inv, Outcome, Acyclic, CatalogOk, EndedJob;
    assert CanBeginJob(given);
    steps, w := TookJob(l, before, given);
    DatasetBranch(DiskOf(given), Job(8, Some(0), None), 0);
  }

  /** Two snapshots are stored in one dataset, and two cleanup operations are queued for the first. The first
      operation is carried out, the process crashes, and the worker lists the second again: it takes the dataset, and
      the other snapshot with it. */
  lemma RelistedCleanupDestroys(l: Lib, a: Request, b: Request, data: Bytes, more: Bytes)
    returns (first: seq<Step>, rest: seq<Step>, w: World, w': World)
    requires Lawful(l) && SafeNames(a) && SafeNames(b) && b.ds == a.ds && b.name != a.name && a.base == b.base == ""
    requires data != [] && more != []
    ensures IsRun(l, INITIAL, first) && After(l, INITIAL, first) == w
    ensures IsRun(l, INITIAL, first + rest) && After(l, INITIAL, first + rest) == w'
    ensures 4 in w.cat.snapshots && w.cat.snapshots[4].status == Committed
    ensures Restored(l, w.store, ManifestKey(b.ds, b.name)) == Some(more)
    ensures forall i :: 0 <= i < |rest| ==> !rest[i].QueueDataset? && (rest[i].QueueSnapshot? ==> rest[i].s == 1)
    ensures 0 !in w'.cat.datasets && 4 !in w'.cat.snapshots
  {
    hide Runs, IsRun, After, Restored, Inv, CatalogOk, ListedJob, SafeNames, OfJob, Rootless, BothListed;
    first, w := BothStored(l, a, b, data, more);
    RunsAre(l, INITIAL, first, w);
    var queued, w1 := QueuedTwice(l, first, w, a);
    var one, w2 := FirstDone(l, first + queued, w1);
    TookRestart(l, first + queued + one, w2);
    var w3 := Crashed(w2).(mode := Serving);
    var again := ListJobs([Job(8, Some(0), None)]);
    TookList(l, first + queued + one + [Crash, Serve], w3, again.jobs);
    var w4 := w3.(jobs := again.jobs);
    var two;
    two, w' := RelistedDone(l, first + queued + one + [Crash, Serve] + [again], w4);
    rest := queued + (one + ([Crash, Serve, again] + two));
    assert first + rest == first + queued + one + [Crash, Serve] + [again] + two;
    RunsAre(l, INITIAL, first + rest, w');
    JobsQueueNothing(one);
    JobsQueueNothing(two);
  }

  lemma JobsQueueNothing(steps: seq<Step>)
    requires OfJob(steps)
    ensures forall i :: 0 <= i < |steps| ==> !steps[i].QueueDataset? && !steps[i].QueueSnapshot?
  {
  }

  // ---- a failed incremental upload ----

  function IncrementStart(req: Request): Start {
    Start(0, req, Some(1), None, 4, 5, 6, 0)
  }

  lemma IncrementAdmitted(l: Lib, w: World, a: Request, b: Request)
    requires Inv(l, w) && OneStored(w, a) && SafeNames(a) && SafeNames(b)
    requires b.ds == a.ds && b.name != a.name && b.base == a.name
    ensures CanStart(w, IncrementStart(b))
  {
    hide Keys.ValidDataset, Keys.DotFree, Inv, Acyclic, Chain;
    InvParts(l, w);
  }

  /** The base is stored; an incremental upload onto it has failed; the base's deletion is listed. */
  ghost predicate BaseListed(w: World) {
    && w.mode == Serving && w.live == map[] && w.deletion == None && w.jobs == [Job(7, Some(0), Some(1))]
    && ListedJob(w.cat, w.jobs[0]) && w.cat.snapshots.Keys == {1, 4}
    && w.cat.snapshots[1].status == Committed && w.cat.snapshots[4].status == Failed
    && w.cat.snapshots[1].parent == None && w.cat.snapshots[4].parent == Some(1)
    && 5 in w.cat.sessions && w.cat.sessions[5].base == Some(1) && w.cat.sessions[5].snapshot == Some(4)
  }

  lemma BaseBlocked(c: Catalog, j: Job)
    requires Acyclic(ParentsOf(c.snapshots)) && j.snapshot == Some(1) && c.snapshots.Keys == {1, 4}
    requires c.snapshots[1].parent == None && c.snapshots[4].parent == Some(1) && c.snapshots[4].status == Failed
    ensures !Refused(c, j) && Blocked(c, {1}, SessionsOf(c, 1))
  {
    hide Acyclic;
    assert CommittedChildren(c.snapshots, {1}) == {};
    assert 4 in c.snapshots && c.snapshots[4].parent.value in {1};
  }

  lemma FailedIncrement(l: Lib, first: seq<Step>, given: World, a: Request, b: Request) returns (steps: seq<Step>, w: World)
    requires Runs(l, INITIAL, first, given) && OneStored(given, a) && CanStart(given, IncrementStart(b))
    ensures Runs(l, INITIAL, first + steps, w) && BaseListed(w) && w.store == given.store
    ensures w.cat.snapshots[1].manifestKey == given.cat.snapshots[1].manifestKey
    ensures steps == [StartUpload(IncrementStart(b)), Fail(5), QueueSnapshot(7, 1), ListJobs([Job(7, Some(0), Some(1))])]
  {
    hide Runs, CanStart, FailRows, KeptChunks, KeptOperations;
    var t := IncrementStart(b);
    TookStart(l, INITIAL, first, given, t);
    var w1 := Started(given, t);
    IncrementRows(given, a, b);
    hide Started;
    TookFail(l, INITIAL, first + [StartUpload(t)], w1, 5);
    var w2 := UploadFailed(w1, 5);
    FailKeeps(w1.cat, t, w1.live[5]);
    FailedRows(w1.cat, 5, w1.live[5]);
    TookQueue(l, first + [StartUpload(t)] + [Fail(5)], w2, 7, 1);
    var w3 := JobQueued(w2, 7, 0, Some(1));
    var jobs := [Job(7, Some(0), Some(1))];
    TookList(l, first + [StartUpload(t)] + [Fail(5)] + [QueueSnapshot(7, 1)], w3, jobs);
    w := w3.(jobs := jobs);
    steps := [StartUpload(t), Fail(5), QueueSnapshot(7, 1), ListJobs(jobs)];
    assert first + [StartUpload(t)] + [Fail(5)] + [QueueSnapshot(7, 1)] + [ListJobs(jobs)] == first + steps;
    assert w2.live == map[];
  }

  lemma IncrementRows(w: World, a: Request, b: Request)
    requires OneStored(w, a)
    ensures var v := Started(w, IncrementStart(b));
      && v.mode == Serving && v.live == map[5 := Upload(0, 4, 6, b, [], Reading)] && v.jobs == [] && v.deletion == None
      && v.issued == {0, 1, 2, 3, 4, 5, 6} && v.store == w.store
      && v.cat.snapshots == w.cat.snapshots[4 := NewSnapshot(IncrementStart(b))]
      && 5 in v.cat.sessions && v.cat.sessions[5] == NewSession(IncrementStart(b))
  {
  }

  /** A snapshot is stored, an incremental upload onto it fails, and the snapshot's deletion is queued and carried
      out as far as it goes: its objects are gone, its row stays behind as deleting, and the operation has failed. */
  lemma FailedIncrementStrands(l: Lib, a: Request, b: Request, data: Bytes)
    returns (first: seq<Step>, rest: seq<Step>, w: World, w': World)
    requires Lawful(l) && SafeNames(a) && SafeNames(b) && b.ds == a.ds && b.name != a.name
    requires a.base == "" && b.base == a.name && data != []
    ensures IsRun(l, INITIAL, first) && After(l, INITIAL, first) == w
    ensures IsRun(l, INITIAL, first + rest) && After(l, INITIAL, first + rest) == w'
    ensures 1 in w.cat.snapshots && w.cat.snapshots[1].status == Committed
    ensures Restored(l, w.store, ManifestKey(a.ds, a.name)) == Some(data)
    ensures 1 in w'.cat.snapshots && w'.cat.snapshots[1].status == Deleting
    ensures 7 in w'.cat.operations && w'.cat.operations[7].status == OpFailed
    ensures Restored(l, w'.store, ManifestKey(a.ds, a.name)) == None
  {
    hide Runs, IsRun, After, Inv, CatalogOk, SafeNames, OfJob, Acyclic, CanStart, Outcome, Refused, Blocked, ListedJob;
    first, w := FirstStored(l, a, data);
    RunsAre(l, INITIAL, first, w);
    IncrementAdmitted(l, w, a, b);
    var steps, w1 := FailedIncrement(l, first, w, a, b);
    RunsAre(l, INITIAL, first + steps, w1);
    InvParts(l, w1);
    var j := w1.jobs[0];
    assert CanBeginJob(w1);
    var more;
    more, w' := TookJob(l, first + steps, w1);
    BaseBlocked(w1.cat, j);
    ListedThere(w1.cat, j);
    DeletionCompletes(DiskOf(w1), j, 1);
    assert ManifestKey(a.ds, a.name) in ObjectKeys(w1.cat, {1}) by { assert w1.cat.snapshots[1].manifestKey.Some?; }
    rest := steps + more;
    assert first + rest == first + steps + more;
    RunsAre(l, INITIAL, first + rest, w');
  }
}
