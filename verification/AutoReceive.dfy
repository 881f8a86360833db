/** Uploads whose base is found by GUID (internal/sshserver/server.go), over whole runs: the chains they build carry
    matching GUIDs, and validation accepts them. */
module AutoReceive {
  import opened Base
  import opened Manifests
  import opened Catalogs
  import opened Lineage
  import opened Streams
  import opened Machine
  import opened Invariant
  import opened SafetyPurge
  import opened SafetyEnd
  import opened SafetyWorker
  import opened SafetyStart
  import opened Theorems
  import opened LineageTheorems
  import opened Deletions
  import opened Deleters
  import opened Repositories
  import opened Validation
  import opened IngestSteps

  /** An upload whose base, if it has one, is the committed snapshot its stream's fromguid names. */
  ghost predicate AutoStart(c: Catalog, t: Start) {
    t.base.Some? ==>
      t.req.fromGuid != "" && t.base.value in c.snapshots && c.snapshots[t.base.value].toGuid == t.req.fromGuid
  }

  ghost predicate AutoRun(l: Lib, w: World, steps: seq<Step>)
    requires IsRun(l, w, steps)
    decreases |steps|
  {
    steps == [] ||
    ((steps[0].StartUpload? ==> AutoStart(w.cat, steps[0].start)) && AutoRun(l, Apply(l, w, steps[0]), steps[1..]))
  }

  /** A handler that starts its upload on the base its GUID names makes such a run. */
  lemma HandlerRunIsAuto(l: Lib, w: World, steps: seq<Step>, t: Start)
    requires IsRun(l, w, steps) && OneStart(steps, t) && AutoStart(w.cat, t)
    ensures AutoRun(l, w, steps)
  {
    hide Enabled, Apply, AutoStart;
    NoStartIsAuto(l, Apply(l, w, steps[0]), steps[1..]);
  }

  lemma {:induction false} NoStartIsAuto(l: Lib, w: World, steps: seq<Step>)
    requires IsRun(l, w, steps) && forall i :: 0 <= i < |steps| ==> !steps[i].StartUpload?
    ensures AutoRun(l, w, steps)
    decreases |steps|
  {
    hide Enabled, Apply, AutoStart;
    if steps != [] {
      NoStartIsAuto(l, Apply(l, w, steps[0]), steps[1..]);
    }
  }

  // ---- GUIDs along parent links ----

  ghost predicate RowGuids(snapshots: map<Id, Snapshot>) {
    forall s :: s in snapshots && snapshots[s].status == Committed && snapshots[s].parent.Some?
                && snapshots[s].parent.value in snapshots ==>
      snapshots[s].fromGuid == snapshots[snapshots[s].parent.value].toGuid != ""
  }

  ghost predicate LiveGuids(snapshots: map<Id, Snapshot>, live: map<Id, Upload>) {
    forall e :: e in live && live[e].snap in snapshots && snapshots[live[e].snap].parent.Some?
                && snapshots[live[e].snap].parent.value in snapshots ==>
      live[e].req.fromGuid == snapshots[snapshots[live[e].snap].parent.value].toGuid != ""
  }

  ghost predicate GuidsOk(w: World) {
    RowGuids(w.cat.snapshots) && LiveGuids(w.cat.snapshots, w.live)
  }

  /** Rows may go and statuses may change, but nothing becomes committed or uploading and nothing else changes. */
  ghost predicate Settles(a: map<Id, Snapshot>, b: map<Id, Snapshot>) {
    && b.Keys <= a.Keys
    && (forall s :: s in b ==>
          && b[s] == a[s].(status := b[s].status)
          && (b[s].status in {Committed, Uploading} ==> b[s].status == a[s].status))
  }

  ghost predicate SameUploads(a: map<Id, Upload>, b: map<Id, Upload>) {
    b.Keys <= a.Keys && forall e :: e in b ==> b[e].snap == a[e].snap && b[e].req == a[e].req
  }

  lemma SettlesGuids(w: World, w': World)
    requires GuidsOk(w) && Settles(w.cat.snapshots, w'.cat.snapshots) && SameUploads(w.live, w'.live)
    ensures GuidsOk(w')
  {
  }

  lemma CommitGuids(l: Lib, w: World, e: Id)
    requires GuidsOk(w) && Inv(l, w) && e in w.live && w.live[e].at.Ready?
    ensures GuidsOk(UploadCommitted(l, w, e))
  {
    hide Inv, CommitRows, RowGuids, LiveGuids;
    var u := w.live[e];
    CommitSnapshotsOnly(l, w.cat, e, u);
    LiveSnaps(l, w);
    ChildlessUpload(l, w, e);
    forall f | f in w.live && f != e ensures w.live[f].snap != u.snap {
      OneSession(l, w, e, f);
    }
    CommittedGuids(l, w.cat.snapshots, w.live, e);
  }

  lemma CommittedGuids(l: Lib, a: map<Id, Snapshot>, live: map<Id, Upload>, e: Id)
    requires RowGuids(a) && LiveGuids(a, live) && e in live && live[e].snap in a
    requires forall s :: s in a ==> a[s].parent != Some(live[e].snap)
    requires forall f :: f in live && f != e ==> live[f].snap != live[e].snap
    ensures var b := a[live[e].snap := CommittedRow(l, a[live[e].snap], live[e])];
      RowGuids(b) && LiveGuids(b, live - {e})
  {
    hide Concat;
  }

  /** Nothing has an upload that is still running as its parent. */
  lemma ChildlessUpload(l: Lib, w: World, e: Id)
    requires Inv(l, w) && e in w.live
    ensures forall s :: s in w.cat.snapshots ==> w.cat.snapshots[s].parent != Some(w.live[e].snap)
  {
    hide CommittedOk, WorkerOk, ModeOk, IssuedOk, SnapshotRowsOk, SessionRowsOk, ChunkRowsOk, OperationRowsOk;
    hide UniqueOk, StatusOk, LinksOk, LiveOk;
    LiveSnaps(l, w);
    assert !Referenceable(w.cat.snapshots, w.cat.sessions, w.live[e].snap);
  }

  lemma OneSession(l: Lib, w: World, e: Id, f: Id)
    requires Inv(l, w) && e in w.live && f in w.live && e != f
    ensures w.live[f].snap != w.live[e].snap
  {
    hide CommittedOk, WorkerOk, ModeOk, IssuedOk, SnapshotRowsOk, SessionRowsOk, ChunkRowsOk, OperationRowsOk;
    hide StatusOk, LinksOk, RefsOk, Holds, RowsWritten, AtOk;
    assert LiveUpload(l, w.cat, w.store, e, w.live[e]) && LiveUpload(l, w.cat, w.store, f, w.live[f]);
  }

  lemma StartGuids(l: Lib, w: World, t: Start)
    requires GuidsOk(w) && Inv(l, w) && CanStart(w, t) && AutoStart(w.cat, t)
    ensures GuidsOk(Started(w, t))
  {
    hide Inv, CatalogOk, Acyclic, Blocked, StartRows, RowGuids, LiveGuids;
    StartSnapshots(w.cat, t);
    RowParents(l, w);
    LiveSnaps(l, w);
    var gone := if t.previous.Some? then {t.previous.value} else {};
    StartRowGuids(w.cat.snapshots, gone, t);
    StartLiveGuids(w.cat.snapshots, w.live, gone, t);
  }

  lemma StartRowGuids(a: map<Id, Snapshot>, gone: set<Id>, t: Start)
    requires RowGuids(a) && t.snap !in a
    requires forall s :: s in a && a[s].parent.Some? ==> a[s].parent.value in a
    ensures RowGuids((a - gone)[t.snap := NewSnapshot(t)])
  {
    var b := (a - gone)[t.snap := NewSnapshot(t)];
    forall s | s in b && b[s].status == Committed && b[s].parent.Some? && b[s].parent.value in b
      ensures b[s].fromGuid == b[b[s].parent.value].toGuid != ""
    {
      assert s in a && a[s] == b[s] && b[s].parent.value in a;
    }
  }

  lemma StartLiveGuids(a: map<Id, Snapshot>, live: map<Id, Upload>, gone: set<Id>, t: Start)
    requires LiveGuids(a, live) && t.snap !in a && t.sess !in live
    requires forall s :: s in a && a[s].parent.Some? ==> a[s].parent.value in a
    requires forall e :: e in live ==> live[e].snap in a
    requires t.base.Some? ==> t.req.fromGuid != "" && t.base.value in a && a[t.base.value].toGuid == t.req.fromGuid
    ensures LiveGuids((a - gone)[t.snap := NewSnapshot(t)],
                      live[t.sess := Upload(t.d, t.snap, t.op, t.req, [], Reading)])
  {
    var b := (a - gone)[t.snap := NewSnapshot(t)];
    var more := live[t.sess := Upload(t.d, t.snap, t.op, t.req, [], Reading)];
    forall e | e in more && more[e].snap in b && b[more[e].snap].parent.Some? && b[more[e].snap].parent.value in b
      ensures more[e].req.fromGuid == b[b[more[e].snap].parent.value].toGuid != ""
    {
      if e != t.sess {
        assert live[e].snap in a && a[live[e].snap] == b[live[e].snap];
      }
    }
  }

  lemma StartSnapshots(c: Catalog, t: Start)
    ensures StartRows(c, t).snapshots ==
      (c.snapshots - (if t.previous.Some? then {t.previous.value} else {}))[t.snap := NewSnapshot(t)]
  {
  }

  lemma RowParents(l: Lib, w: World)
    requires Inv(l, w)
    ensures forall s :: s in w.cat.snapshots && w.cat.snapshots[s].parent.Some? ==>
      w.cat.snapshots[s].parent.value in w.cat.snapshots
    ensures w.cat.snapshots.Keys <= w.issued
  {
    hide CommittedOk, WorkerOk, ModeOk, SessionRowsOk, ChunkRowsOk, OperationRowsOk, LiveOk;
    hide UniqueOk, StatusOk, LinksOk, RefsOk;
  }

  lemma LiveSnaps(l: Lib, w: World)
    requires Inv(l, w)
    ensures forall e :: e in w.live ==> w.live[e].snap in w.cat.snapshots && w.cat.snapshots[w.live[e].snap].status == Uploading
    ensures w.live.Keys <= w.issued
  {
    hide CatalogOk, CommittedOk, WorkerOk, ModeOk, Holds, RowsWritten, AtOk;
    forall e | e in w.live ensures e in w.cat.sessions && w.live[e].snap in w.cat.snapshots
                                   && w.cat.snapshots[w.live[e].snap].status == Uploading {
      assert LiveUpload(l, w.cat, w.store, e, w.live[e]);
    }
  }

  // ---- the other steps settle ----

  lemma SelfSettles(a: map<Id, Snapshot>)
    ensures Settles(a, a)
  {
  }

  lemma FailedSettles(c: Catalog, s: Id)
    ensures Settles(c.snapshots, SetSnapshotStatus(c, s, Failed).snapshots)
  {
    var b := SetSnapshotStatus(c, s, Failed).snapshots;
    assert b == if s in c.snapshots then c.snapshots[s := c.snapshots[s].(status := Failed)] else c.snapshots;
    hide SetSnapshotStatus;
  }

  lemma MarkedSettles(c: Catalog, gone: set<Id>)
    ensures Settles(c.snapshots, Invalidate(c, gone).snapshots)
  {
  }

  lemma FailSettles(c: Catalog, e: Id, u: Upload)
    ensures Settles(c.snapshots, FailRows(c, e, u).snapshots)
  {
    hide Settles, SetSnapshotStatus, SetSessionStatus, SetOperationStatus;
    FailedSettles(c, u.snap);
    var c1 := SetSnapshotStatus(c, u.snap, Failed);
    SameSnapshots(c1, e, u.op, SessionFailed, OpFailed);
    SameSnapshots(SetSessionStatus(c1, e, SessionFailed), e, u.op, SessionFailed, OpFailed);
  }

  lemma FinishSettles(c: Catalog, j: Job)
    ensures Settles(c.snapshots, FinishRows(c, j).snapshots)
  {
    hide FinishRows;
    FinishLinks(c, j);
  }

  lemma UploadSettles(l: Lib, w: World, step: Step)
    requires Enabled(l, w, step) && MovesUpload(step)
    ensures Settles(w.cat.snapshots, Apply(l, w, step).cat.snapshots) && SameUploads(w.live, Apply(l, w, step).live)
  {
    hide Settles, FailRows;
    SelfSettles(w.cat.snapshots);
    if step.Fail? {
      FailSettles(w.cat, step.e, w.live[step.e]);
    } else if step.RecordChunk? {
      RecordKeeps(l, w, step.e);
    } else if step.SetManifestKey? {
      KeyKeeps(w, step.e);
    } else if step.Progress? || step.EndOfStream? {
      MoveKeeps(w, step.e);
    }
    hide ChunkRecorded, ManifestKeySet, SessionMoved, ManifestOf, ChunkRowOf, RecordedRows;
  }

  lemma RecordKeeps(l: Lib, w: World, e: Id)
    requires CanRecordChunk(l, w, e)
    ensures ChunkRecorded(l, w, e).cat.snapshots == w.cat.snapshots && SameUploads(w.live, ChunkRecorded(l, w, e).live)
  {
    hide ChunkRowOf;
  }

  lemma KeyKeeps(w: World, e: Id)
    requires e in w.live
    ensures ManifestKeySet(w, e).cat.snapshots == w.cat.snapshots && SameUploads(w.live, ManifestKeySet(w, e).live)
  {
  }

  lemma MoveKeeps(w: World, e: Id)
    requires e in w.live
    ensures forall status, at :: SessionMoved(w, e, status, at).cat.snapshots == w.cat.snapshots
                                 && SameUploads(w.live, SessionMoved(w, e, status, at).live)
  {
  }

  lemma SessionSnapshots(c: Catalog, e: Id, key: Key)
    ensures SetSessionManifestKey(c, e, key).snapshots == c.snapshots
    ensures forall status :: SetSessionStatus(c, e, status).snapshots == c.snapshots
  {
  }

  lemma JobSettles(l: Lib, w: World, step: Step)
    requires Enabled(l, w, step) && (MovesJob(step) || step.FinishJob?)
    ensures Settles(w.cat.snapshots, Apply(l, w, step).cat.snapshots) && Apply(l, w, step).live == w.live
  {
    hide Settles, FinishRows, Targets, ObjectKeys, CountCommittedDescendants, Acyclic, Invalidate;
    hide UploadingInto, ListedJob, JobBegun, JobFailed, JobCounted, ApplyUpload, ApplyStartup;
    SelfSettles(w.cat.snapshots);
    if step.FinishJob? {
      FinishSettles(w.cat, w.deletion.value.job);
      hide SetOperationStatus;
    } else if step.InvalidateRows? {
      MarkedSettles(w.cat, Targets(w.cat, w.deletion.value.job));
    } else {
      JobSnapshots(w);
      JobLive(w);
    }
  }

  lemma JobLive(w: World)
    requires w.jobs != []
    ensures JobBegun(w).live == w.live && (w.deletion.Some? ==> JobFailed(w).live == w.live)
    ensures CanCount(w) ==> JobCounted(w).live == w.live
  {
    hide SetOperationStatus, Acyclic, CountCommittedDescendants;
  }

  lemma OtherSettles(l: Lib, w: World, step: Step)
    requires Enabled(l, w, step) && !MovesUpload(step) && !MovesJob(step)
    requires !step.FinishJob? && !step.StartUpload? && !step.Commit?
    ensures Settles(w.cat.snapshots, Apply(l, w, step).cat.snapshots) && SameUploads(w.live, Apply(l, w, step).live)
  {
    hide Settles, SetSnapshotStatus, SetSessionStatus, Targets, ObjectKeys, Acyclic, StaleList, ListedJob, UploadingInto;
    SelfSettles(w.cat.snapshots);
    if step.ReconcileSnapshot? {
      var e := w.mode.todo[0];
      if e in w.cat.sessions && w.cat.sessions[e].snapshot.Some? {
        FailedSettles(w.cat, w.cat.sessions[e].snapshot.value);
      }
    } else if step.ReconcileSession? {
      SessionSnapshots(w.cat, w.mode.todo[0], ManifestKey(DatasetName("", "", ""), ""));
    }
  }

  lemma StepGuids(l: Lib, w: World, step: Step)
    requires GuidsOk(w) && Inv(l, w) && Enabled(l, w, step) && (step.StartUpload? ==> AutoStart(w.cat, step.start))
    ensures GuidsOk(Apply(l, w, step))
  {
    hide GuidsOk, Inv, AutoStart, CanStart, Settles;
    if step.StartUpload? {
      StartGuids(l, w, step.start);
    } else if step.Commit? {
      CommitGuids(l, w, step.e);
    } else {
      if MovesUpload(step) {
        UploadSettles(l, w, step);
      } else if MovesJob(step) || step.FinishJob? {
        JobSettles(l, w, step);
      } else {
        OtherSettles(l, w, step);
      }
      SettlesGuids(w, Apply(l, w, step));
    }
  }

  lemma {:induction false} RunGuids(l: Lib, w: World, steps: seq<Step>)
    requires GuidsOk(w) && Inv(l, w) && IsRun(l, w, steps) && AutoRun(l, w, steps)
    ensures GuidsOk(After(l, w, steps))
    decreases |steps|
  {
    hide GuidsOk, Inv, Enabled, Apply, AutoStart;
    if steps != [] {
      StepGuids(l, w, steps[0]);
      StepKeeps(l, w, steps[0]);
      RunGuids(l, Apply(l, w, steps[0]), steps[1..]);
    }
  }

  // ---- validation accepts what auto-receive built ----

  /** The checker reads each committed stream to its end and reports the GUIDs of its begin record. */
  ghost predicate Honest(w: World, checker: Checker) {
    forall s :: s in w.cat.snapshots && w.cat.snapshots[s].status == Committed && s in w.sent ==>
      var u := w.sent[s].1; var key := ManifestKey(u.req.ds, u.req.name);
      && |Concat(u.parts)| <= checker.stops(key)
      && checker.verdict(key, Concat(u.parts)) == Some(Guids(u.req.fromGuid, u.req.toGuid))
  }

  lemma RowsAgreeWritten(l: Lib, c: Catalog, e: Id, u: Upload)
    requires RowsWritten(l, c, u.snap, e, u.req, u.parts)
    ensures RowsAgree(c, u.snap, ManifestOf(l, u.req, u.parts))
  {
    hide Concat;
    var m := ManifestOf(l, u.req, u.parts);
    forall i: nat | i < |m.chunks| ensures RowAgrees(c.chunks[(u.snap, i)], m.chunks[i]) {
      assert (u.snap, i) in c.chunks;
    }
  }

  lemma HeadsAgreeHeld(l: Lib, store: Objects, u: Upload, i: nat)
    requires Holds(store, u.req, u.parts) && i < |u.parts|
    ensures HeadAgrees(l, store, ManifestOf(l, u.req, u.parts).chunks[i])
  {
    hide Concat;
  }

  lemma ArchivedVerified(l: Lib, c: Catalog, store: Objects, e: Id, u: Upload)
    requires Lawful(l) && Archived(l, c, store, e, u)
    ensures Verified(l, c, store, u.snap, ManifestKey(u.req.ds, u.req.name)) == Some(ManifestOf(l, u.req, u.parts))
  {
    hide RowsWritten, Holds, RowsAgree, HeadAgrees, RowMatches, Concat, WellFormed;
    RowsAgreeWritten(l, c, e, u);
    forall i | 0 <= i < |u.parts| ensures HeadAgrees(l, store, ManifestOf(l, u.req, u.parts).chunks[i]) {
      HeadsAgreeHeld(l, store, u, i);
    }
  }

  lemma ArchivedChecked(l: Lib, c: Catalog, store: Objects, e: Id, u: Upload, checker: Checker)
    requires Archived(l, c, store, e, u)
    requires |Concat(u.parts)| <= checker.stops(ManifestKey(u.req.ds, u.req.name))
    ensures Checked(l, store, checker, ManifestKey(u.req.ds, u.req.name), ManifestOf(l, u.req, u.parts))
         == checker.verdict(ManifestKey(u.req.ds, u.req.name), Concat(u.parts))
  {
    hide RowsWritten, RowMatches, Concat, WellFormed, ReadChunks;
    HeldChunksRead(l, store, u.req, u.parts);
  }

  lemma ItemAccepted(l: Lib, w: World, checker: Checker, chain: seq<Id>, i: nat)
    requires Lawful(l) && Inv(l, w) && Honest(w, checker) && i < |chain|
    requires chain[i] in w.cat.snapshots && w.cat.snapshots[chain[i]].status == Committed
    requires i > 0 ==> chain[i - 1] in w.cat.snapshots
    requires w.cat.snapshots[chain[i]].parent == (if i == 0 then None else Some(chain[i - 1]))
    ensures ItemOk(l, w.cat, w.store, checker, chain, i)
    ensures GuidsAt(l, w.cat, w.store, checker, chain, i)
         == Guids(w.cat.snapshots[chain[i]].fromGuid, w.cat.snapshots[chain[i]].toGuid)
  {
    hide CatalogOk, LiveOk, WorkerOk, ModeOk, IssuedOk, RowsWritten, Holds, HoldsManifest, Concat, Verified, Checked, ChunksOf;
    var e, u := w.sent[chain[i]].0, w.sent[chain[i]].1;
    assert Archived(l, w.cat, w.store, e, u);
    ArchivedVerified(l, w.cat, w.store, e, u);
    ArchivedChecked(l, w.cat, w.store, e, u, checker);
  }

  lemma LinkAccepted(l: Lib, w: World, s: Id, p: Id)
    requires GuidsOk(w) && s in w.cat.snapshots && w.cat.snapshots[s].status == Committed
    requires w.cat.snapshots[s].parent == Some(p) && p in w.cat.snapshots
    ensures GuidsLink(Guids(w.cat.snapshots[p].fromGuid, w.cat.snapshots[p].toGuid),
                      Guids(w.cat.snapshots[s].fromGuid, w.cat.snapshots[s].toGuid))
  {
  }

  ghost predicate CommittedPath(snapshots: map<Id, Snapshot>, chain: seq<Id>, s: Id) {
    && chain != [] && chain[|chain| - 1] == s
    && (forall i :: 0 <= i < |chain| ==> chain[i] in snapshots && snapshots[chain[i]].status == Committed)
    && (forall i :: 0 <= i < |chain| ==> snapshots[chain[i]].parent == if i == 0 then None else Some(chain[i - 1]))
  }

  lemma PathAccepted(l: Lib, w: World, chain: seq<Id>, s: Id, checker: Checker)
    requires Lawful(l) && Inv(l, w) && GuidsOk(w) && Honest(w, checker) && CommittedPath(w.cat.snapshots, chain, s)
    ensures ChainOk(l, w.cat, w.store, checker, chain, s)
  {
    hide Inv, GuidsOk, Honest, ItemOk, GuidsAt, GuidsLink, Lawful;
    forall i | 0 <= i < |chain|
      ensures ItemOk(l, w.cat, w.store, checker, chain, i)
      ensures GuidsAt(l, w.cat, w.store, checker, chain, i)
           == Guids(w.cat.snapshots[chain[i]].fromGuid, w.cat.snapshots[chain[i]].toGuid)
    {
      ItemAccepted(l, w, checker, chain, i);
    }
    forall i | 0 < i < |chain|
      ensures GuidsLink(GuidsAt(l, w.cat, w.store, checker, chain, i - 1), GuidsAt(l, w.cat, w.store, checker, chain, i))
    {
      LinkAccepted(l, w, chain[i], chain[i - 1]);
    }
  }

  lemma CommittedChain(l: Lib, w: World, s: Id)
    requires Inv(l, w) && s in w.cat.snapshots && w.cat.snapshots[s].status == Committed
    ensures var p := ParentsOf(w.cat.snapshots); Acyclic(p) && CommittedPath(w.cat.snapshots, Chain(p, s), s)
  {
    hide CommittedOk, LiveOk, WorkerOk, ModeOk, IssuedOk;
    hide SnapshotRowsOk, SessionRowsOk, ChunkRowsOk, OperationRowsOk, UniqueOk, StatusOk, RefsOk, Acyclic;
    var p := ParentsOf(w.cat.snapshots);
    ChainShape(p, s);
    var chain := Chain(p, s);
    forall i | 0 <= i < |chain| ensures chain[i] in w.cat.snapshots && w.cat.snapshots[chain[i]].status == Committed {
      AncestorCommitted(w.cat.snapshots, s, chain[i]);
    }
  }

  /** In every state reached by uploads whose bases were found by GUID, with any failures, crashes and deletions
      in between, the restore chain of every committed snapshot passes validation by an honest checker. */
  lemma AutoChainsValidate(l: Lib, steps: seq<Step>, s: Id, checker: Checker)
    requires Lawful(l) && IsRun(l, INITIAL, steps) && AutoRun(l, INITIAL, steps)
    requires var w := After(l, INITIAL, steps);
      Honest(w, checker) && s in w.cat.snapshots && w.cat.snapshots[s].status == Committed
    ensures var w := After(l, INITIAL, steps);
      && Acyclic(ParentsOf(w.cat.snapshots))
      && ChainOk(l, w.cat, w.store, checker, Chain(ParentsOf(w.cat.snapshots), s), s)
  {
    hide Inv, IsRun, After, AutoRun, Honest, ChainOk, Acyclic, CommittedPath;
    InitialInv(l);
    RunKeeps(l, INITIAL, steps);
    assert GuidsOk(INITIAL);
    hide GuidsOk;
    RunGuids(l, INITIAL, steps);
    var w := After(l, INITIAL, steps);
    CommittedChain(l, w, s);
    PathAccepted(l, w, Chain(ParentsOf(w.cat.snapshots), s), s, checker);
  }
}
