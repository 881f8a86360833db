/** A listed job can always be carried out: from every state the service reaches there is a run of the worker's steps
    that ends in the job's outcome. */
module JobRuns {
  import opened Base
  import opened Manifests
  import opened Catalogs
  import opened Lineage
  import opened Streams
  import opened Machine
  import opened Invariant
  import opened SafetyStart
  import opened Deletions
  import opened DeletionRuns

  /** The worker is done with its first job and has touched nothing but the disk. */
  ghost predicate EndedJob(w: World, w': World) {
    w.jobs != [] && w' == w.(cat := w'.cat, store := w'.store, jobs := w.jobs[1..], deletion := None)
  }

  /** The worker is still at its first job and has touched nothing but the disk. */
  ghost predicate AtJob(w: World, w': World) {
    w'.deletion.Some? && w' == w.(cat := w'.cat, store := w'.store, deletion := w'.deletion)
  }

  /** Every step is one of the worker's on its current job. */
  ghost predicate OfJob(steps: seq<Step>) {
    forall i :: 0 <= i < |steps| ==> steps[i].BeginJob? || CarriesOn(steps[i])
  }

  lemma EndsLater(a: World, b: World, c: World)
    requires AtJob(a, b) && EndedJob(b, c)
    ensures EndedJob(a, c)
  {
  }

  lemma RemoveStep(l: Lib, w: World)
    requires w.mode == Serving && CanRemove(w)
    ensures Enabled(l, w, RemoveObject) && Apply(l, w, RemoveObject) == ObjectRemoved(w) && AtJob(w, ObjectRemoved(w))
  {
  }

  lemma FinishStep(l: Lib, w: World)
    requires w.mode == Serving && CanFinish(w)
    ensures Enabled(l, w, FinishJob) && Apply(l, w, FinishJob) == JobFinished(w) && EndedJob(w, JobFinished(w))
  {
    hide FinishRows;
  }

  lemma ListStep(l: Lib, w: World, keys: seq<Key>)
    requires w.mode == Serving && CanListKeys(w, keys)
    ensures Enabled(l, w, ListKeys(keys)) && Apply(l, w, ListKeys(keys)) == KeysListed(w, keys) && AtJob(w, KeysListed(w, keys))
  {
    hide ObjectKeys, Targets;
  }

  lemma InvalidateStep(l: Lib, w: World)
    requires w.mode == Serving && w.deletion.Some? && w.deletion.value.at.Listed?
    ensures Enabled(l, w, InvalidateRows) && Apply(l, w, InvalidateRows) == RowsInvalidated(w) && AtJob(w, RowsInvalidated(w))
  {
    hide Invalidate, Targets;
  }

  lemma CountStep(l: Lib, w: World)
    requires w.mode == Serving && CanCount(w)
    ensures Enabled(l, w, CountDescendants) && Apply(l, w, CountDescendants) == JobCounted(w)
    ensures if JobCounted(w).deletion.Some? then AtJob(w, JobCounted(w)) && JobCounted(w).deletion.value.at.Counted?
            else EndedJob(w, JobCounted(w))
  {
    hide Acyclic, CountCommittedDescendants, SetOperationStatus;
  }

  lemma BeginStep(l: Lib, w: World)
    requires w.mode == Serving && CanBeginJob(w)
    ensures Enabled(l, w, BeginJob) && Apply(l, w, BeginJob) == JobBegun(w)
    ensures if w.jobs[0].snapshot.None? && w.jobs[0].dataset.None? then EndedJob(w, JobBegun(w))
            else AtJob(w, JobBegun(w)) && JobBegun(w).deletion.value.at.Begun?
  {
    hide SetOperationStatus;
  }

  /** The objects that are left, then the closing transaction. */
  lemma {:induction false} RemovingRuns(l: Lib, disk: Disk, j: Job, w: World) returns (steps: seq<Step>, w': World)
    requires Inv(l, w) && w.mode == Serving && Acyclic(ParentsOf(disk.cat.snapshots))
    requires Midway(disk, j, w) && w.deletion.Some? && w.deletion.value.at.Removing?
    ensures IsRun(l, w, steps) && After(l, w, steps) == w' && Inv(l, w')
    ensures DiskOf(w') == Outcome(disk, j) && EndedJob(w, w') && OfJob(steps)
    decreases |w.deletion.value.at.keys| - w.deletion.value.at.next
  {
    hide Inv, Enabled, Apply, Acyclic, Outcome, EndedJob, AtJob, IsListing, Invalidate, SetOperationStatus, Targets;
    if w.deletion.value.at.next == |w.deletion.value.at.keys| {
      FinishStep(l, w);
      FinishedOutcome(disk, j, w);
      StepKeeps(l, w, FinishJob);
      steps, w' := [FinishJob], JobFinished(w);
      assert steps[1..] == [];
    } else {
      RemoveStep(l, w);
      RemovedMidway(disk, j, w);
      StepKeeps(l, w, RemoveObject);
      var rest;
      rest, w' := RemovingRuns(l, disk, j, ObjectRemoved(w));
      RunCons(l, w, RemoveObject, rest);
      EndsLater(w, ObjectRemoved(w), w');
      steps := [RemoveObject] + rest;
    }
  }

  /** From the count on. */
  lemma CountedRuns(l: Lib, disk: Disk, j: Job, w: World) returns (steps: seq<Step>, w': World)
    requires Inv(l, w) && w.mode == Serving && Acyclic(ParentsOf(disk.cat.snapshots))
    requires Midway(disk, j, w) && w.deletion.Some? && w.deletion.value.at.Counted?
    ensures IsRun(l, w, steps) && After(l, w, steps) == w' && Inv(l, w')
    ensures DiskOf(w') == Outcome(disk, j) && EndedJob(w, w') && OfJob(steps)
  {
    hide Inv, Enabled, Apply, Acyclic, Outcome, EndedJob, AtJob, Midway, ObjectKeys, IsRun, After;
    var keys := InSomeOrder(ObjectKeys(w.cat, Targets(w.cat, w.deletion.value.job)));
    ListStep(l, w, keys);
    ListedMidway(disk, j, w, keys);
    StepKeeps(l, w, ListKeys(keys));
    var w1 := KeysListed(w, keys);
    InvalidateStep(l, w1);
    InvalidatedMidway(disk, j, w1);
    StepKeeps(l, w1, InvalidateRows);
    var w2 := RowsInvalidated(w1);
    var rest;
    rest, w' := RemovingRuns(l, disk, j, w2);
    RunCons(l, w1, InvalidateRows, rest);
    EndsLater(w1, w2, w');
    RunCons(l, w, ListKeys(keys), [InvalidateRows] + rest);
    EndsLater(w, w1, w');
    steps := [ListKeys(keys)] + ([InvalidateRows] + rest);
  }

  lemma Counts(l: Lib, disk: Disk, j: Job, w: World)
    requires Inv(l, w) && Acyclic(ParentsOf(disk.cat.snapshots)) && Midway(disk, j, w) && w.deletion.value.at.Begun?
    ensures CanCount(w)
  {
    hide CatalogOk, CommittedOk, LiveOk, WorkerOk, ModeOk, IssuedOk, Acyclic, SetOperationStatus;
    MarkingRows(disk.cat, j.op, Running);
  }

  lemma BegunRuns(l: Lib, disk: Disk, j: Job, w: World) returns (steps: seq<Step>, w': World)
    requires Inv(l, w) && w.mode == Serving && Acyclic(ParentsOf(disk.cat.snapshots))
    requires Midway(disk, j, w) && w.deletion.Some? && w.deletion.value.at.Begun?
    ensures IsRun(l, w, steps) && After(l, w, steps) == w' && Inv(l, w')
    ensures DiskOf(w') == Outcome(disk, j) && EndedJob(w, w') && OfJob(steps)
  {
    hide Inv, Enabled, Apply, Acyclic, Outcome, EndedJob, Midway, JobCounted, CanCount;
    Counts(l, disk, j, w);
    CountStep(l, w);
    CountedMidway(disk, j, w);
    StepKeeps(l, w, CountDescendants);
    if JobCounted(w).deletion.Some? {
      var rest;
      rest, w' := CountedRuns(l, disk, j, JobCounted(w));
      RunCons(l, w, CountDescendants, rest);
      EndsLater(w, JobCounted(w), w');
      steps := [CountDescendants] + rest;
    } else {
      steps, w' := [CountDescendants], JobCounted(w);
      assert steps[1..] == [];
    }
  }

  lemma NothingToDo(w: World)
    requires CanBeginJob(w) && w.jobs[0].snapshot.None? && w.jobs[0].dataset.None? && Acyclic(ParentsOf(w.cat.snapshots))
    ensures DiskOf(JobBegun(w)) == Outcome(DiskOf(w), w.jobs[0])
  {
    hide Acyclic, SetOperationStatus;
  }

  /** The worker's first job can be carried out to its outcome while nothing is uploaded into its dataset. */
  lemma JobRun(l: Lib, w: World) returns (steps: seq<Step>, w': World)
    requires Inv(l, w) && w.mode == Serving && CanBeginJob(w) && Acyclic(ParentsOf(w.cat.snapshots))
    ensures IsRun(l, w, steps) && After(l, w, steps) == w' && Inv(l, w')
    ensures DiskOf(w') == Outcome(DiskOf(w), w.jobs[0]) && EndedJob(w, w') && OfJob(steps)
  {
    hide Inv, Enabled, Apply, Acyclic, Outcome, EndedJob, Midway, JobBegun, UploadingInto;
    BeginStep(l, w);
    StepKeeps(l, w, BeginJob);
    if w.jobs[0].snapshot.None? && w.jobs[0].dataset.None? {
      NothingToDo(w);
      steps, w' := [BeginJob], JobBegun(w);
      assert steps[1..] == [];
    } else {
      BegunMidway(w);
      var rest;
      rest, w' := BegunRuns(l, DiskOf(w), w.jobs[0], JobBegun(w));
      RunCons(l, w, BeginJob, rest);
      EndsLater(w, JobBegun(w), w');
      steps := [BeginJob] + rest;
    }
  }

  /** One run after another. */
  lemma {:induction false} RunAppend(l: Lib, w: World, steps: seq<Step>, more: seq<Step>)
    requires IsRun(l, w, steps) && IsRun(l, After(l, w, steps), more)
    ensures IsRun(l, w, steps + more) && After(l, w, steps + more) == After(l, After(l, w, steps), more)
    decreases |steps|
  {
    hide Enabled, Apply;
    if steps == [] {
      assert steps + more == more;
    } else {
      RunAppend(l, Apply(l, w, steps[0]), steps[1..], more);
      assert (steps + more)[1..] == steps[1..] + more;
    }
  }
}
