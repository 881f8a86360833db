/** One deletion, from the moment it is listed until it has ended, whatever the service does meanwhile: uploads into
    other datasets, other deletions, any number of crashes, and the startup reconciliation after each. */
module Resumption {
  import opened Base
  import opened Manifests
  import opened Catalogs
  import opened Lineage
  import opened Streams
  import opened Machine
  import opened Invariant
  import opened SafetyStart
  import opened Deletions
  import opened DeletionRuns
  import opened Footprints
  import opened Interruptions

  /** How far the worker has got with the job, told from the disk it is at. */
  ghost predicate Stage(w: World, j: Job) {
    && w.deletion.Some? && w.deletion.value.job == j && w.jobs != []
    && j.op in w.cat.operations && w.cat.operations[j.op].status == Running && Acyclic(ParentsOf(w.cat.snapshots))
    && (match w.deletion.value.at
        case Begun => true
        case Counted => !Refused(w.cat, j)
        case Listed(keys) => !Refused(w.cat, j) && Lists(w.cat, j, keys)
        case Removing(keys, n) =>
          !Refused(w.cat, j) && Lists(w.cat, j, keys) && n <= |keys| && forall k :: k in keys[..n] ==> k !in w.store)
  }

  /** No other listed job is on the same dataset. */
  ghost predicate Alone(jobs: seq<Job>, j: Job, d: Id) {
    forall i :: 0 <= i < |jobs| ==>
      (jobs[i].op == j.op ==> jobs[i] == j) && (jobs[i].dataset == Some(d) ==> jobs[i].op == j.op)
  }

  /** The job is listed, wherever the worker may be with it, and carrying it out from here would leave the footprint
      of the goal. */
  ghost predicate Awaits(w: World, j: Job, d: Id, name: DatasetName, goal: Disk) {
    && j.dataset == Some(d) && ListedJob(w.cat, j) && Standing(w, d, name, j.op) && Alone(w.jobs, j, d)
    && Acyclic(ParentsOf(w.cat.snapshots)) && SameFoot(Outcome(DiskOf(w), j), goal, d, name, j.op)
    && (w.deletion.Some? && w.deletion.value.job.op == j.op ==> Stage(w, j))
  }

  ghost predicate OwnJob(w: World, j: Job) {
    w.jobs != [] && w.jobs[0].op == j.op
  }

  /** What is left out: uploads into the dataset, other cleanup operations on it, and a job that ends early because a
      call failed. */
  ghost predicate Peaceful(w: World, step: Step, j: Job, d: Id) {
    && (step.StartUpload? ==> step.start.d != d)
    && (step.ListJobs? ==> forall i :: 0 <= i < |step.jobs| && step.jobs[i].dataset == Some(d) ==> step.jobs[i].op == j.op)
    && (step.FailJob? || step.DropJob? ==> !OwnJob(w, j))
  }

  ghost predicate Peacefully(l: Lib, w: World, steps: seq<Step>, j: Job, d: Id)
    requires IsRun(l, w, steps)
    decreases |steps|
  {
    steps == [] || (Peaceful(w, steps[0], j, d) && Peacefully(l, Apply(l, w, steps[0]), steps[1..], j, d))
  }

  /** The job has ended, with the footprint it was to leave, and is not listed any more. */
  ghost predicate JobEnded(w: World, j: Job, d: Id, name: DatasetName, goal: Disk) {
    SameFoot(DiskOf(w), goal, d, name, j.op) && forall k: Job :: k.op == j.op ==> !ListedJob(w.cat, k)
  }

  lemma InvCatalogs(l: Lib, w: World)
    requires Inv(l, w)
    ensures CatalogOk(w.cat) && WorkerOk(w) && RowsOk(w.cat) && Acyclic(ParentsOf(w.cat.snapshots))
  {
    hide SnapshotRowsOk, SessionRowsOk, ChunkRowsOk, OperationRowsOk, UniqueOk, StatusOk, RefsOk, Acyclic;
    hide CommittedOk, LiveOk, ModeOk, IssuedOk, WorkerOk;
  }

  lemma ListedRefs(c: Catalog, j: Job)
    requires CatalogOk(c) && ListedJob(c, j)
    ensures JobRefs(c, j) && c.operations[j.op].session == None && (j.snapshot.Some? ==> j.snapshot.value in c.snapshots)
  {
    hide SnapshotRowsOk, SessionRowsOk, ChunkRowsOk, UniqueOk, StatusOk, RefsOk, LinksOk;
  }

  // ---- steps elsewhere ----

  lemma OutcomeStays(l: Lib, w: World, w': World, j: Job, d: Id, name: DatasetName, goal: Disk)
    requires Inv(l, w) && Inv(l, w') && Awaits(w, j, d, name, goal) && Untouched(w, w', d, name, j.op)
    ensures ListedJob(w'.cat, j) && Acyclic(ParentsOf(w'.cat.snapshots))
    ensures SameFoot(Outcome(DiskOf(w'), j), goal, d, name, j.op)
  {
    hide Inv, CatalogOk, WorkerOk, RowsOk, Acyclic, JobRefs, Outcome, Stage, Standing, SameSnapshots, SameSessions, SameChunks;
    InvCatalogs(l, w);
    InvCatalogs(l, w');
    assert ListedJob(w'.cat, j);
    ListedRefs(w.cat, j);
    ListedRefs(w'.cat, j);
    OutcomeSame(DiskOf(w), DiskOf(w'), j, d, name);
    FootSymmetric(Outcome(DiskOf(w), j), Outcome(DiskOf(w'), j), d, name, j.op);
    FootTransitive(Outcome(DiskOf(w'), j), Outcome(DiskOf(w), j), goal, d, name, j.op);
  }

  lemma KeysNamed(c: Catalog, j: Job, d: Id, name: DatasetName, k: Key)
    requires RowsOk(c) && JobRefs(c, j) && j.dataset == Some(d) && d in c.datasets && c.datasets[d] == name
    requires k in ObjectKeys(c, Targets(c, j))
    ensures k.ds == name
  {
    hide SessionRowsOk;
  }

  lemma StageStays(l: Lib, w: World, w': World, j: Job, d: Id, name: DatasetName)
    requires Inv(l, w) && Inv(l, w') && Stage(w, j) && ListedJob(w.cat, j) && ListedJob(w'.cat, j) && j.dataset == Some(d)
    requires Standing(w, d, name, j.op) && Untouched(w, w', d, name, j.op) && w'.deletion == w.deletion && w'.jobs == w.jobs
    ensures Stage(w', j)
  {
    hide Inv, CatalogOk, WorkerOk, RowsOk, Acyclic, JobRefs, SameSnapshots, SameSessions, SameChunks, Refused, Targets;
    hide ObjectKeys, UploadingInto;
    InvCatalogs(l, w);
    InvCatalogs(l, w');
    ListedRefs(w.cat, j);
    ListedRefs(w'.cat, j);
    RefusedSame(w.cat, w'.cat, j, d);
    TargetsSame(w.cat, w'.cat, j, d);
    if w.deletion.value.at.Removing? {
      var keys, n := w.deletion.value.at.keys, w.deletion.value.at.next;
      forall k | k in keys[..n] ensures k !in w'.store {
        assert k in keys;
        KeysNamed(w.cat, j, d, name, k);
      }
    }
  }

  /** The worker's list and current job after a step that is not one of this job. */
  lemma WorkMoves(l: Lib, w: World, step: Step, j: Job, d: Id)
    requires Inv(l, w) && Enabled(l, w, step) && Peaceful(w, step, j, d) && ListedJob(w.cat, j) && Alone(w.jobs, j, d)
    requires WorksOnJob(step) ==> !OwnJob(w, j)
    ensures var w' := Apply(l, w, step);
      && Alone(w'.jobs, j, d)
      && (w'.deletion.Some? && w'.deletion.value.job.op == j.op ==> w'.deletion == w.deletion && w'.jobs == w.jobs)
  {
    hide Inv, Enabled, Apply, ListedJob;
    if OfUpload(step) {
      UploadWork(l, w, step);
    } else if OfStartup(step) {
      StartupWork(l, w, step);
    } else if WorksOnJob(step) {
      InvCatalogs(l, w);
      hide CatalogOk, WorkerOk, RowsOk, Acyclic;
      if w.deletion.Some? { CurrentDeletion(w); }
      OtherWork(l, w, step, j);
    } else {
      QueueWork(l, w, step, j, d);
    }
  }

  lemma QueueWork(l: Lib, w: World, step: Step, j: Job, d: Id)
    requires Enabled(l, w, step) && !OfUpload(step) && !OfStartup(step) && !WorksOnJob(step)
    requires Peaceful(w, step, j, d) && ListedJob(w.cat, j) && Alone(w.jobs, j, d)
    ensures var w' := Apply(l, w, step);
      Alone(w'.jobs, j, d) && (w'.deletion == w.deletion) && (w'.jobs == w.jobs || w.deletion == None)
  {
    hide ApplyUpload, ApplyStartup, UploadingInto;
  }

  lemma UploadWork(l: Lib, w: World, step: Step)
    requires Enabled(l, w, step) && OfUpload(step)
    ensures Apply(l, w, step).deletion == w.deletion && Apply(l, w, step).jobs == w.jobs
  {
    hide CanStart, StartRows, CommitRows, FailRows, RecordedRows, ManifestOf, WellFormed, ApplyStartup;
    hide SetSessionStatus, SetSessionManifestKey;
  }

  lemma StartupWork(l: Lib, w: World, step: Step)
    requires Enabled(l, w, step) && OfStartup(step)
    ensures var w' := Apply(l, w, step);
      (w'.deletion == w.deletion && w'.jobs == w.jobs) || (w'.deletion == None && w'.jobs == [])
  {
    hide EnabledServing, ApplyUpload, StaleList, SetSnapshotStatus, SetSessionStatus, FailOperationsOf;
  }

  lemma OtherWork(l: Lib, w: World, step: Step, j: Job)
    requires Enabled(l, w, step) && WorksOnJob(step) && !OwnJob(w, j)
    requires w.deletion.Some? ==> w.jobs != [] && w.deletion.value.job == w.jobs[0]
    ensures var w' := Apply(l, w, step);
      && (w'.jobs == w.jobs || (w.jobs != [] && w'.jobs == w.jobs[1..]))
      && (w'.deletion.Some? ==> w'.deletion.value.job.op != j.op)
  {
    hide FinishRows, Invalidate, Targets, ObjectKeys, Acyclic, ApplyUpload, ApplyStartup, UploadingInto, JobBegun;
    hide JobCounted, SetOperationStatus;
    if step.BeginJob? || step.CountDescendants? {
      StatusWork(w);
    }
  }

  lemma StatusWork(w: World)
    requires w.jobs != []
    ensures JobBegun(w).jobs in {w.jobs, w.jobs[1..]}
    ensures JobBegun(w).deletion.Some? ==> JobBegun(w).deletion.value.job == w.jobs[0]
    ensures CanCount(w) ==>
      && JobCounted(w).jobs in {w.jobs, w.jobs[1..]}
      && (JobCounted(w).deletion.Some? ==> JobCounted(w).deletion.value.job == w.deletion.value.job)
  {
    hide Acyclic, CountCommittedDescendants, SetOperationStatus;
  }

  lemma OtherAwaits(l: Lib, w: World, step: Step, j: Job, d: Id, name: DatasetName, goal: Disk)
    requires Inv(l, w) && Enabled(l, w, step) && Awaits(w, j, d, name, goal) && Peaceful(w, step, j, d)
    requires WorksOnJob(step) ==> !OwnJob(w, j)
    ensures Awaits(Apply(l, w, step), j, d, name, goal)
  {
    hide Inv, Enabled, Apply, Standing, SameFoot, Stage, Outcome, Acyclic, ListedJob, Untouched;
    var w' := Apply(l, w, step);
    OtherStep(l, w, step, d, name, j.op);
    StillStanding(l, w, step, d, name, j.op);
    StepKeeps(l, w, step);
    OutcomeStays(l, w, w', j, d, name, goal);
    WorkMoves(l, w, step, j, d);
    if w'.deletion.Some? && w'.deletion.value.job.op == j.op {
      StageStays(l, w, w', j, d, name);
    }
  }

  // ---- the job's own steps ----

  lemma RunningAlready(c: Catalog, o: Id)
    requires o in c.operations && c.operations[o].status == Running
    ensures SetOperationStatus(c, o, Running) == c
  {
    assert c.operations[o := c.operations[o].(status := Running)] == c.operations;
  }

  lemma BeginAwaits(w: World, j: Job, d: Id, name: DatasetName, goal: Disk)
    requires Awaits(w, j, d, name, goal) && CanBeginJob(w) && OwnJob(w, j)
    ensures Awaits(JobBegun(w), j, d, name, goal)
  {
    hide Acyclic, Outcome, SameFoot, SetOperationStatus, UploadingInto;
    assert w.jobs[0] == j;
    ResumeMarked(DiskOf(w), j);
    MarkingRows(w.cat, j.op, Running);
    MarkedOperation(w.cat, j.op);
    SameLive(w, JobBegun(w), d);
  }

  lemma MarkedOperation(c: Catalog, o: Id)
    requires o in c.operations
    ensures SetOperationStatus(c, o, Running).operations == c.operations[o := c.operations[o].(status := Running)]
  {
  }

  lemma SameLive(w: World, w': World, d: Id)
    requires w'.live == w.live
    ensures UploadingInto(w', Some(d)) <==> UploadingInto(w, Some(d))
  {
  }

  lemma CountAwaits(w: World, j: Job, d: Id, name: DatasetName, goal: Disk)
    requires Awaits(w, j, d, name, goal) && CanCount(w) && w.deletion.value.job == j
    ensures Awaits(JobCounted(w), j, d, name, goal) || JobEnded(JobCounted(w), j, d, name, goal)
  {
    hide Acyclic, SameFoot, SetOperationStatus, UploadingInto, CountCommittedDescendants;
    if Refused(w.cat, j) {
      RunningAlready(w.cat, j.op);
      assert DiskOf(JobCounted(w)) == Outcome(DiskOf(w), j);
      NotListedAfter(DiskOf(w), j);
    } else {
      hide Outcome;
      SameLive(w, JobCounted(w), d);
      assert DiskOf(JobCounted(w)) == DiskOf(w);
    }
  }

  lemma ListAwaits(w: World, j: Job, d: Id, name: DatasetName, goal: Disk, keys: seq<Key>)
    requires Awaits(w, j, d, name, goal) && CanListKeys(w, keys) && w.deletion.value.job == j
    ensures Awaits(KeysListed(w, keys), j, d, name, goal)
  {
    hide Acyclic, SameFoot, UploadingInto, Outcome, ObjectKeys, Targets, Refused;
    SameLive(w, KeysListed(w, keys), d);
    assert DiskOf(KeysListed(w, keys)) == DiskOf(w);
  }

  lemma NoneRemoved(store: Objects, keys: seq<Key>)
    ensures RemoveFirst(store, keys, 0) == store
  {
    assert keys[..0] == [];
    assert store - {} == store;
  }

  lemma InvalidateAwaits(w: World, j: Job, d: Id, name: DatasetName, goal: Disk)
    requires Awaits(w, j, d, name, goal) && w.deletion.Some? && w.deletion.value.at.Listed? && w.deletion.value.job == j
    ensures Awaits(RowsInvalidated(w), j, d, name, goal)
  {
    hide Acyclic, SameFoot, UploadingInto, Outcome, ObjectKeys, Targets, Refused, Invalidate;
    var keys := w.deletion.value.at.keys;
    var w' := RowsInvalidated(w);
    RunningAlready(w.cat, j.op);
    ResumeInvalidated(DiskOf(w), j, keys, 0);
    NoneRemoved(w.store, keys);
    StillNotRefused(w.cat, j);
    InvalidatedTargets(w.cat, j);
    InvalidatedOnly(w.cat, Targets(w.cat, j));
    SameLive(w, w', d);
    assert keys[..0] == [];
  }

  lemma InvalidatedOnly(c: Catalog, gone: set<Id>)
    ensures var b := Invalidate(c, gone); b.operations == c.operations && b.datasets == c.datasets
  {
  }

  lemma RemovedOutcome(disk: Disk, j: Job, k: Key)
    requires Acyclic(ParentsOf(disk.cat.snapshots)) && !Refused(disk.cat, j) && k in ObjectKeys(disk.cat, Targets(disk.cat, j))
    ensures Outcome(disk.(store := disk.store - {k}), j) == Outcome(disk, j)
  {
    hide Acyclic, Refused, ObjectKeys, Targets, FinishRows, Invalidate, SetOperationStatus;
    var all := ObjectKeys(disk.cat, Targets(disk.cat, j));
    assert disk.store - {k} - all == disk.store - all;
  }

  lemma RemoveAwaits(w: World, j: Job, d: Id, name: DatasetName, goal: Disk)
    requires Awaits(w, j, d, name, goal) && CanRemove(w) && w.deletion.value.job == j
    ensures Awaits(ObjectRemoved(w), j, d, name, goal)
  {
    hide Acyclic, SameFoot, UploadingInto, Outcome, ObjectKeys, Targets, Refused;
    var keys, n := w.deletion.value.at.keys, w.deletion.value.at.next;
    var w' := ObjectRemoved(w);
    assert keys[n] in keys;
    RemovedOutcome(DiskOf(w), j, keys[n]);
    assert DiskOf(w') == DiskOf(w).(store := w.store - {keys[n]});
    SameLive(w, w', d);
    assert keys[..n + 1] == keys[..n] + [keys[n]];
  }

  /** Once every object is gone, all that is left of the outcome is the closing transaction. */
  lemma FinishEnds(w: World, j: Job, d: Id, name: DatasetName, goal: Disk)
    requires WorkerOk(w) && Awaits(w, j, d, name, goal) && CanFinish(w) && w.deletion.value.job == j
    ensures JobEnded(JobFinished(w), j, d, name, goal)
  {
    hide Acyclic, SameFoot, UploadingInto, ObjectKeys, Refused, FinishRows, JobOk, KeysOfJob, ChildlessOk;
    var keys := w.deletion.value.at.keys;
    RunningAlready(w.cat, j.op);
    AllMarked(w.cat, Targets(w.cat, j));
    assert keys[..|keys|] == keys;
    assert w.store - ObjectKeys(w.cat, Targets(w.cat, j)) == w.store;
    assert DiskOf(JobFinished(w)) == Outcome(DiskOf(w), j);
    NotListedAfter(DiskOf(w), j);
  }

  lemma AllMarked(c: Catalog, gone: set<Id>)
    requires forall t :: t in gone && t in c.snapshots ==> c.snapshots[t].status == Deleting
    ensures Invalidate(c, gone) == c
  {
    assert Invalidate(c, gone).snapshots == c.snapshots;
  }

  lemma OwnAwaits(l: Lib, w: World, step: Step, j: Job, d: Id, name: DatasetName, goal: Disk)
    requires Inv(l, w) && Enabled(l, w, step) && Awaits(w, j, d, name, goal) && Peaceful(w, step, j, d)
    requires WorksOnJob(step) && OwnJob(w, j)
    ensures Awaits(Apply(l, w, step), j, d, name, goal) || JobEnded(Apply(l, w, step), j, d, name, goal)
  {
    hide Awaits, JobEnded, CatalogOk, CommittedOk, LiveOk, WorkerOk, ModeOk, IssuedOk, ApplyUpload, ApplyStartup;
    hide JobBegun, JobCounted, KeysListed, RowsInvalidated, ObjectRemoved, JobFinished, CanListKeys, Acyclic;
    assert Alone(w.jobs, j, d) by { AwaitsAlone(w, j, d, name, goal); }
    if step.BeginJob? {
      BeginAwaits(w, j, d, name, goal);
    } else {
      assert w.deletion.Some? by { WorkingOn(l, w, step, j, d); }
      CurrentDeletion(w);
      if step.CountDescendants? {
        CountAwaits(w, j, d, name, goal);
      } else if step.ListKeys? {
        ListAwaits(w, j, d, name, goal, step.keys);
      } else if step.InvalidateRows? {
        InvalidateAwaits(w, j, d, name, goal);
      } else if step.RemoveObject? {
        RemoveAwaits(w, j, d, name, goal);
      } else if step.FinishJob? {
        FinishEnds(w, j, d, name, goal);
      }
    }
  }

  lemma AwaitsAlone(w: World, j: Job, d: Id, name: DatasetName, goal: Disk)
    requires Awaits(w, j, d, name, goal)
    ensures Alone(w.jobs, j, d)
  {
  }

  lemma WorkingOn(l: Lib, w: World, step: Step, j: Job, d: Id)
    requires Enabled(l, w, step) && WorksOnJob(step) && !step.BeginJob? && Peaceful(w, step, j, d) && OwnJob(w, j)
    ensures w.deletion.Some?
  {
    hide ObjectKeys, Targets, Acyclic;
  }

  lemma StepAwaits(l: Lib, w: World, step: Step, j: Job, d: Id, name: DatasetName, goal: Disk)
    requires Inv(l, w) && Enabled(l, w, step) && Awaits(w, j, d, name, goal) && Peaceful(w, step, j, d)
    ensures Awaits(Apply(l, w, step), j, d, name, goal) || JobEnded(Apply(l, w, step), j, d, name, goal)
  {
    hide Inv, Enabled, Apply, Awaits, JobEnded, Peaceful;
    if WorksOnJob(step) && OwnJob(w, j) {
      OwnAwaits(l, w, step, j, d, name, goal);
    } else {
      OtherAwaits(l, w, step, j, d, name, goal);
    }
  }

  /** Over any such run the job is still to be done after every step, or one of them has ended it. */
  lemma {:induction false} RunAwaits(l: Lib, w: World, steps: seq<Step>, j: Job, d: Id, name: DatasetName, goal: Disk)
    returns (n: nat)
    requires Inv(l, w) && IsRun(l, w, steps) && Peacefully(l, w, steps, j, d) && Awaits(w, j, d, name, goal)
    ensures n <= |steps| && IsRun(l, w, steps[..n])
    ensures if n == |steps| && Awaits(After(l, w, steps), j, d, name, goal) then true
            else JobEnded(After(l, w, steps[..n]), j, d, name, goal)
    decreases |steps|
  {
    hide Inv, Enabled, Apply, Awaits, JobEnded, Peaceful;
    if steps == [] {
      n := 0;
    } else {
      var next := Apply(l, w, steps[0]);
      StepAwaits(l, w, steps[0], j, d, name, goal);
      StepKeeps(l, w, steps[0]);
      if Awaits(next, j, d, name, goal) {
        n := RunAwaits(l, next, steps[1..], j, d, name, goal);
        n := n + 1;
        assert steps[..n][1..] == steps[1..][..n - 1];
        assert steps[1..][..|steps| - 1] == steps[1..];
      } else {
        n := 1;
        assert steps[..1][1..] == [];
      }
    }
  }

  /** A cleanup operation is listed, on a dataset nothing is being uploaded into, and the worker has not begun it.
      Then whatever run follows, with any number of crashes and restarts at any points, reconciliation after each,
      uploads into other datasets, other deletions: the operation is still listed, and carrying it out from there
      would have the effect that carrying it out at the beginning would have had; or it has ended, with that effect. */
  lemma InterruptedDeletion(l: Lib, w: World, steps: seq<Step>, j: Job, d: Id) returns (n: nat)
    requires Inv(l, w) && ListedJob(w.cat, j) && j.dataset == Some(d) && !UploadingInto(w, Some(d))
    requires Alone(w.jobs, j, d) && (w.deletion.Some? ==> w.deletion.value.job.op != j.op)
    requires IsRun(l, w, steps) && Peacefully(l, w, steps, j, d)
    ensures n <= |steps| && IsRun(l, w, steps[..n]) && Acyclic(ParentsOf(w.cat.snapshots)) && d in w.cat.datasets
    ensures var goal, now := Outcome(DiskOf(w), j), After(l, w, steps[..n]);
      || (n == |steps| && ListedJob(now.cat, j) && Acyclic(ParentsOf(now.cat.snapshots))
          && SameFoot(Outcome(DiskOf(now), j), goal, d, w.cat.datasets[d], j.op))
      || (SameFoot(DiskOf(now), goal, d, w.cat.datasets[d], j.op) && forall k: Job :: k.op == j.op ==> !ListedJob(now.cat, k))
  {
    hide Inv, IsRun, After, Peacefully, Outcome, SameFoot, Acyclic, ListedJob, CatalogOk, WorkerOk, RowsOk;
    InvCatalogs(l, w);
    ListedRefs(w.cat, j);
    ListedStanding(w, j, d);
    var name := w.cat.datasets[d];
    SelfFoot(Outcome(DiskOf(w), j), d, name, j.op);
    n := RunAwaits(l, w, steps, j, d, name, Outcome(DiskOf(w), j));
    if n == |steps| {
      assert steps[..n] == steps;
    }
  }

  lemma ListedStanding(w: World, j: Job, d: Id)
    requires CatalogOk(w.cat) && ListedJob(w.cat, j) && j.dataset == Some(d) && !UploadingInto(w, Some(d))
    ensures d in w.cat.datasets && Standing(w, d, w.cat.datasets[d], j.op)
  {
    hide SnapshotRowsOk, SessionRowsOk, ChunkRowsOk, UniqueOk, StatusOk, RefsOk, LinksOk, UploadingInto;
  }
}
