/** The base of an auto-receive is looked up by GUID first and resolved by name later, when the upload starts
    (internal/sshserver/server.go): what may happen in between. */
module Lookups {
  import opened Base
  import opened Manifests
  import opened Catalogs
  import opened Lineage
  import opened Streams
  import opened Machine
  import opened Invariant
  import opened SafetyStart
  import opened Theorems
  import opened LineageTheorems
  import opened Validation
  import opened AutoReceive

  /** The committed snapshot of a dataset whose stream ended at a GUID. */
  ghost predicate EndsAt(c: Catalog, ds: DatasetName, guid: string, s: Id) {
    && s in c.snapshots && c.snapshots[s].dataset in c.datasets && c.datasets[c.snapshots[s].dataset] == ds
    && c.snapshots[s].status == Committed && c.snapshots[s].toGuid == guid
  }

  /** The base startUpload resolves by name is the snapshot the GUID found. */
  lemma BaseByGuid(c: Catalog, issued: set<Id>, t: Start, s: Id)
    requires CatalogOk(c) && Admits(c, issued, t) && t.base.Some?
    requires EndsAt(c, t.req.ds, t.req.fromGuid, s) && c.snapshots[s].name == t.req.base && t.req.fromGuid != ""
    ensures t.base == Some(s) && AutoStart(c, t)
  {
    hide SessionRowsOk, ChunkRowsOk, OperationRowsOk, StatusOk, RefsOk, LinksOk, Blocked, Chain;
  }

  // ---- a row once found ----

  /** The row is gone, or it is the one found, whatever its status has become; it is never uploading again. */
  ghost predicate RowKept(w: World, s: Id, row: Snapshot) {
    && s in w.issued
    && (s in w.cat.snapshots ==>
          && w.cat.snapshots[s] == row.(status := w.cat.snapshots[s].status)
          && w.cat.snapshots[s].status != Uploading)
  }

  lemma IssuedGrows(l: Lib, w: World, step: Step)
    requires Enabled(l, w, step)
    ensures w.issued <= Apply(l, w, step).issued
  {
    hide Enabled, Apply, StartRows, CommitRows;
    if step.StartUpload? || step.PutChunk? || step.Commit? {
      UploadIssues(l, w, step);
    } else if MovesUpload(step) {
      UploadSameData(l, w, step);
    } else {
      OtherSameData(l, w, step);
    }
  }

  lemma UploadIssues(l: Lib, w: World, step: Step)
    requires Enabled(l, w, step) && (step.StartUpload? || step.PutChunk? || step.Commit?)
    ensures w.issued <= Apply(l, w, step).issued
  {
    hide CanStart, StartRows, CommitRows, ApplyStartup;
  }

  lemma SettledRow(w: World, w': World, s: Id, row: Snapshot)
    requires RowKept(w, s, row) && w.issued <= w'.issued && Settles(w.cat.snapshots, w'.cat.snapshots)
    ensures RowKept(w', s, row)
  {
  }

  lemma StartedRow(w: World, t: Start, s: Id, row: Snapshot)
    requires RowKept(w, s, row) && CanStart(w, t)
    ensures RowKept(Started(w, t), s, row)
  {
    hide Acyclic, Blocked, Chain, SafeNames, StartRows;
    StartSnapshots(w.cat, t);
  }

  lemma CommittedRowKept(l: Lib, w: World, e: Id, s: Id, row: Snapshot)
    requires Inv(l, w) && RowKept(w, s, row) && e in w.live
    ensures RowKept(UploadCommitted(l, w, e), s, row)
  {
    hide Inv, CommitRows;
    LiveSnaps(l, w);
    CommitSnapshotsOnly(l, w.cat, e, w.live[e]);
  }

  lemma StepKeepsRow(l: Lib, w: World, step: Step, s: Id, row: Snapshot)
    requires Inv(l, w) && Enabled(l, w, step) && RowKept(w, s, row)
    ensures RowKept(Apply(l, w, step), s, row)
  {
    hide Inv, RowKept, CanStart, Settles;
    if step.StartUpload? {
      StartedRow(w, step.start, s, row);
    } else if step.Commit? {
      CommittedRowKept(l, w, step.e, s, row);
    } else {
      IssuedGrows(l, w, step);
      if MovesUpload(step) {
        UploadSettles(l, w, step);
      } else if MovesJob(step) || step.FinishJob? {
        JobSettles(l, w, step);
      } else {
        OtherSettles(l, w, step);
      }
      SettledRow(w, Apply(l, w, step), s, row);
    }
  }

  lemma {:induction false} RunKeepsRow(l: Lib, w: World, steps: seq<Step>, s: Id, row: Snapshot)
    requires Inv(l, w) && IsRun(l, w, steps) && RowKept(w, s, row)
    ensures Inv(l, After(l, w, steps)) && RowKept(After(l, w, steps), s, row)
    decreases |steps|
  {
    hide Inv, Enabled, Apply, RowKept;
    if steps != [] {
      StepKeepsRow(l, w, steps[0], s, row);
      StepKeeps(l, w, steps[0]);
      RunKeepsRow(l, Apply(l, w, steps[0]), steps[1..], s, row);
    }
  }

  // ---- starting on a base that was looked up earlier ----

  lemma FoundRow(l: Lib, w: World, ds: DatasetName, guid: string, s: Id)
    requires Inv(l, w) && EndsAt(w.cat, ds, guid, s)
    ensures RowKept(w, s, w.cat.snapshots[s])
    ensures w.cat.snapshots[s].manifestKey == Some(ManifestKey(ds, w.cat.snapshots[s].name))
  {
    hide CatalogOk, LiveOk, WorkerOk, ModeOk, RowsWritten, Holds, HoldsManifest, Concat;
    assert Archived(l, w.cat, w.store, w.sent[s].0, w.sent[s].1);
  }

  /** startUpload resolves the name to the snapshot that was found, as long as its row is still there. */
  lemma ResolvesFound(c: Catalog, issued: set<Id>, t: Start, s: Id)
    requires CatalogOk(c) && Admits(c, issued, t) && s in c.snapshots && t.req.base != ""
    requires c.snapshots[s].name == t.req.base && c.snapshots[s].manifestKey == Some(ManifestKey(t.req.ds, t.req.base))
    ensures t.base == Some(s)
  {
    hide SessionRowsOk, ChunkRowsOk, OperationRowsOk, StatusOk, RefsOk, LinksOk, Blocked, Chain, Acyclic;
  }

  /** The lookup finds snapshot s; then any steps of any process; then the upload starts. If the row of s is still
      there, s is its base, and its stream continues where s ended. */
  lemma StartAfterLookup(l: Lib, w: World, steps: seq<Step>, s: Id, t: Start)
    requires Inv(l, w) && EndsAt(w.cat, t.req.ds, t.req.fromGuid, s) && w.cat.snapshots[s].name == t.req.base
    requires t.req.fromGuid != "" && t.req.base != "" && IsRun(l, w, steps)
    requires var now := After(l, w, steps); s in now.cat.snapshots && Admits(now.cat, now.issued, t)
    ensures t.base == Some(s) && AutoStart(After(l, w, steps).cat, t)
  {
    hide IsRun, After, Admits, CommittedOk, LiveOk, WorkerOk, ModeOk, IssuedOk, CatalogOk;
    var row := w.cat.snapshots[s];
    FoundRow(l, w, t.req.ds, t.req.fromGuid, s);
    RunKeepsRow(l, w, steps, s, row);
    var now := After(l, w, steps);
    ResolvesFound(now.cat, now.issued, t, s);
  }

  // ---- whole runs ----

  /** The upload started by step i takes the base that a lookup after the first k steps found, and nothing has
      removed that row in between. */
  ghost predicate FoundBefore(l: Lib, w: World, steps: seq<Step>, i: nat, k: nat) {
    && k <= i < |steps| && steps[i].StartUpload?
    && IsRun(l, w, steps[..k]) && IsRun(l, w, steps[..i])
    && var t, found, now := steps[i].start, After(l, w, steps[..k]), After(l, w, steps[..i]);
       && t.req.fromGuid != "" && t.req.base != ""
       && exists s :: EndsAt(found.cat, t.req.ds, t.req.fromGuid, s) && found.cat.snapshots[s].name == t.req.base
                      && s in now.cat.snapshots
  }

  ghost predicate LookedUpRun(l: Lib, w: World, steps: seq<Step>) {
    forall i :: 0 <= i < |steps| && steps[i].StartUpload? && steps[i].start.base.Some? ==>
      exists k :: FoundBefore(l, w, steps, i, k)
  }

  lemma {:induction false} RunSplits(l: Lib, w: World, steps: seq<Step>, k: nat)
    requires IsRun(l, w, steps) && k <= |steps|
    ensures IsRun(l, w, steps[..k]) && IsRun(l, After(l, w, steps[..k]), steps[k..])
    ensures After(l, After(l, w, steps[..k]), steps[k..]) == After(l, w, steps)
    decreases |steps|
  {
    hide Enabled, Apply;
    if k == 0 {
      assert steps[..0] == [] && steps[0..] == steps;
    } else {
      RunSplits(l, Apply(l, w, steps[0]), steps[1..], k - 1);
      assert steps[..k][1..] == steps[1..][..k - 1] && steps[1..][k - 1..] == steps[k..];
    }
  }

  /** A run whose every start continues from the base found for it. */
  lemma {:induction false} AutoPointwise(l: Lib, w: World, steps: seq<Step>)
    requires IsRun(l, w, steps)
    requires forall i :: 0 <= i < |steps| && steps[i].StartUpload? ==>
      IsRun(l, w, steps[..i]) && AutoStart(After(l, w, steps[..i]).cat, steps[i].start)
    ensures AutoRun(l, w, steps)
    decreases |steps|
  {
    hide Enabled, Apply, AutoStart;
    if steps != [] {
      assert steps[..0] == [];
      var next, rest := Apply(l, w, steps[0]), steps[1..];
      forall i | 0 <= i < |rest| && rest[i].StartUpload?
        ensures IsRun(l, next, rest[..i]) && AutoStart(After(l, next, rest[..i]).cat, rest[i].start)
      {
        assert rest[i] == steps[i + 1] && steps[..i + 1][1..] == rest[..i];
      }
      AutoPointwise(l, next, rest);
    }
  }

  /** Looking bases up at any earlier point makes runs of the kind validation accepts, as long as no base found is
      removed before its upload starts. */
  lemma LookedUpIsAuto(l: Lib, steps: seq<Step>)
    requires IsRun(l, INITIAL, steps) && LookedUpRun(l, INITIAL, steps)
    ensures AutoRun(l, INITIAL, steps)
  {
    hide IsRun, After, Inv, AutoStart, FoundBefore;
    InitialInv(l);
    forall i | 0 <= i < |steps| && steps[i].StartUpload?
      ensures IsRun(l, INITIAL, steps[..i]) && AutoStart(After(l, INITIAL, steps[..i]).cat, steps[i].start)
    {
      RunSplits(l, INITIAL, steps, i);
      if steps[i].start.base.Some? {
        var k :| FoundBefore(l, INITIAL, steps, i, k);
        StartsFound(l, steps, i, k);
      } else {
        NoBaseIsAuto(After(l, INITIAL, steps[..i]).cat, steps[i].start);
      }
    }
    AutoPointwise(l, INITIAL, steps);
  }

  lemma NoBaseIsAuto(c: Catalog, t: Start)
    requires t.base.None?
    ensures AutoStart(c, t)
  {
  }

  lemma StartsFound(l: Lib, steps: seq<Step>, i: nat, k: nat)
    requires IsRun(l, INITIAL, steps) && FoundBefore(l, INITIAL, steps, i, k)
    ensures AutoStart(After(l, INITIAL, steps[..i]).cat, steps[i].start)
  {
    hide After, Inv, AutoStart, Admits, Apply;
    var t, found := steps[i].start, After(l, INITIAL, steps[..k]);
    var s :| EndsAt(found.cat, t.req.ds, t.req.fromGuid, s) && found.cat.snapshots[s].name == t.req.base
             && s in After(l, INITIAL, steps[..i]).cat.snapshots;
    InitialInv(l);
    RunKeeps(l, INITIAL, steps[..k]);
    RunSplits(l, INITIAL, steps[..i], k);
    assert steps[..i][..k] == steps[..k];
    RunSplits(l, INITIAL, steps, i);
    assert steps[i..][0] == steps[i];
    StartAfterLookup(l, found, steps[..i][k..], s, t);
  }

  /** Uploads whose bases were looked up by GUID at any earlier point build chains that validation accepts. */
  lemma LookedUpChainsValidate(l: Lib, steps: seq<Step>, s: Id, checker: Checker)
    requires Lawful(l) && IsRun(l, INITIAL, steps) && LookedUpRun(l, INITIAL, steps)
    requires var w := After(l, INITIAL, steps);
      Honest(w, checker) && s in w.cat.snapshots && w.cat.snapshots[s].status == Committed
    ensures var w := After(l, INITIAL, steps);
      && Acyclic(ParentsOf(w.cat.snapshots))
      && ChainOk(l, w.cat, w.store, checker, Chain(ParentsOf(w.cat.snapshots), s), s)
  {
    hide IsRun, After, AutoRun, LookedUpRun, Honest, ChainOk, Acyclic;
    LookedUpIsAuto(l, steps);
    AutoChainsValidate(l, steps, s, checker);
  }
}
