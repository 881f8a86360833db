/** What startup cleanup costs and what it spares. */
module AbandonedTheorems {
  import opened Base
  import opened Manifests
  import opened Catalogs
  import opened Lineage
  import opened Streams
  import opened Machine
  import opened Invariant
  import opened Safety
  import opened SafetyPurge
  import opened SafetyEnd
  import opened SafetyWorker
  import opened SafetyStart
  import opened Theorems
  import opened LineageTheorems
  import opened Deletions
  import opened Deleters
  import opened Abandoned

  lemma {:induction false} TrackedMember(c: Catalog, uploads: seq<AbandonedUpload>, k: Key)
    ensures k in TrackedAll(c, uploads) <==> exists i :: 0 <= i < |uploads| && k in Tracked(c, uploads[i])
  {
    hide Tracked;
    if uploads != [] {
      var n := |uploads| - 1;
      TrackedMember(c, uploads[..n], k);
      if i :| 0 <= i < |uploads| && k in Tracked(c, uploads[i]) && i < n {
        assert uploads[..n][i] == uploads[i];
      }
    }
  }

  // ---- sessions only ever note manifest keys ----

  ghost predicate KeysOk(sessions: map<Id, Session>) {
    forall e :: e in sessions && sessions[e].manifestKey.Some? ==> sessions[e].manifestKey.value.ManifestKey?
  }

  lemma StatusKeys(c: Catalog, e: Id, status: SessionStatus, key: Key)
    requires KeysOk(c.sessions)
    ensures KeysOk(SetSessionStatus(c, e, status).sessions)
    ensures key.ManifestKey? ==>
      KeysOk(SetSessionManifestKey(c, e, key).sessions) && KeysOk(CompleteSession(c, e, key).sessions)
  {
  }

  lemma PurgeKeys(c: Catalog, d: set<Id>, s: set<Id>, e: set<Id>)
    requires KeysOk(c.sessions)
    ensures KeysOk(Purge(c, d, s, e).sessions)
  {
  }

  lemma OtherSessions(l: Lib, c: Catalog, u: Upload, o: Id, status: OperationStatus)
    ensures SetOperationStatus(c, o, status).sessions == c.sessions
    ensures SetSnapshotStatus(c, u.snap, Failed).sessions == c.sessions
    ensures CommitSnapshot(c, u.snap, ManifestKey(u.req.ds, u.req.name), FactsOf(l, u)).sessions == c.sessions
  {
  }

  lemma EndKeys(l: Lib, c: Catalog, e: Id, u: Upload)
    requires KeysOk(c.sessions)
    ensures KeysOk(CommitRows(l, c, e, u).sessions) && KeysOk(FailRows(c, e, u).sessions)
  {
    hide SetOperationStatus, SetSnapshotStatus, SetSessionStatus, CommitSnapshot, CompleteSession, KeysOk;
    var key := ManifestKey(u.req.ds, u.req.name);
    OtherSessions(l, c, u, u.op, Succeeded);
    var c1 := CommitSnapshot(c, u.snap, ManifestKey(u.req.ds, u.req.name), FactsOf(l, u));
    StatusKeys(c1, e, SessionFailed, key);
    OtherSessions(l, CompleteSession(c1, e, key), u, u.op, Succeeded);
    var c2 := SetSnapshotStatus(c, u.snap, Failed);
    StatusKeys(c2, e, SessionFailed, key);
    OtherSessions(l, SetSessionStatus(c2, e, SessionFailed), u, u.op, OpFailed);
  }

  lemma StartKeys(c: Catalog, t: Start)
    requires KeysOk(c.sessions)
    ensures KeysOk(StartRows(c, t).sessions)
  {
    hide Purge;
    var c0 := c.(datasets := c.datasets[t.d := t.req.ds]);
    if t.previous.Some? {
      PurgeKeys(c0, {}, {t.previous.value}, {});
    }
  }

  lemma FinishKeys(c: Catalog, j: Job)
    requires KeysOk(c.sessions)
    ensures KeysOk(FinishRows(c, j).sessions)
  {
    hide KeysOk, SetOperationStatus, Purge, Blocked, RemoveSnapshot, SessionsOf, DatasetSessions, DatasetSnapshots;
    MarkingRows(c, j.op, OpFailed);
    if j.snapshot.Some? {
      var s := j.snapshot.value;
      RemoveSnapshotIsPurge(c, s);
      PurgeKeys(c, {}, {s}, SessionsOf(c, s));
      MarkingRows(Purge(c, {}, {s}, SessionsOf(c, s)), j.op, Succeeded);
    } else if j.dataset.Some? {
      var d := j.dataset.value;
      PurgeKeys(c, {d}, DatasetSnapshots(c, d), DatasetSessions(c, d));
      MarkingRows(Purge(c, {d}, DatasetSnapshots(c, d), DatasetSessions(c, d)), j.op, Succeeded);
    }
  }

  lemma UploadStepKeys(l: Lib, w: World, step: Step)
    requires Enabled(l, w, step) && (MovesUpload(step) || step.Commit?) && KeysOk(w.cat.sessions)
    ensures KeysOk(Apply(l, w, step).cat.sessions)
  {
    hide KeysOk, SetSessionStatus, SetSessionManifestKey, CommitRows, FailRows, ManifestOf, WellFormed, ChunkRecorded;
    hide CanRecordChunk;
    if step.Commit? || step.Fail? {
      EndKeys(l, w.cat, step.e, w.live[step.e]);
    } else if step.RecordChunk? {
      RecordedFrame(l, w, step.e);
    } else if step.Progress? || step.EndOfStream? || step.SetManifestKey? {
      var u := w.live[step.e];
      StatusKeys(w.cat, step.e, WritingChunk, ManifestKey(u.req.ds, u.req.name));
      StatusKeys(w.cat, step.e, CommittingManifest, ManifestKey(u.req.ds, u.req.name));
    }
  }

  lemma JobSessions(w: World)
    requires w.jobs != []
    ensures JobBegun(w).cat.sessions == w.cat.sessions
    ensures w.deletion.Some? ==> JobFailed(w).cat.sessions == w.cat.sessions
  {
    hide SetOperationStatus;
    var o := w.jobs[0].op;
    MarkingRows(w.cat, o, Running);
    MarkingRows(SetOperationStatus(w.cat, o, Running), o, OpFailed);
    if w.deletion.Some? {
      MarkingRows(w.cat, w.deletion.value.job.op, OpFailed);
    }
  }

  lemma JobStepKeys(l: Lib, w: World, step: Step)
    requires Enabled(l, w, step) && MovesJob(step)
    ensures Apply(l, w, step).cat.sessions == w.cat.sessions
  {
    hide Targets, ObjectKeys, CountCommittedDescendants, Acyclic, JobBegun, JobFailed, UploadingInto;
    if !step.InvalidateRows? {
      JobSessions(w);
    }
  }

  lemma OtherStepKeys(l: Lib, w: World, step: Step)
    requires Enabled(l, w, step) && !MovesUpload(step) && !step.Commit? && !MovesJob(step)
    requires !step.StartUpload? && !step.FinishJob? && KeysOk(w.cat.sessions)
    ensures KeysOk(Apply(l, w, step).cat.sessions)
  {
    hide KeysOk, SetSessionStatus, SetSnapshotStatus, Targets, ObjectKeys, Acyclic, ListedJob, StaleList, UploadingInto;
    if step.ReconcileSession? {
      StatusKeys(w.cat, w.mode.todo[0], SessionFailed, ManifestKey(DatasetName("", "", ""), ""));
    } else if step.ReconcileSnapshot? {
      SnapshotStatusSessions(w.cat, w.mode.todo[0]);
    }
  }

  lemma SnapshotStatusSessions(c: Catalog, e: Id)
    ensures forall s :: SetSnapshotStatus(c, s, Failed).sessions == c.sessions
  {
  }

  lemma StepKeys(l: Lib, w: World, step: Step)
    requires Enabled(l, w, step) && KeysOk(w.cat.sessions)
    ensures KeysOk(Apply(l, w, step).cat.sessions)
  {
    hide KeysOk, CanStart, StartRows, FinishRows;
    if step.StartUpload? {
      StartKeys(w.cat, step.start);
    } else if step.FinishJob? {
      FinishKeys(w.cat, w.deletion.value.job);
    } else if MovesUpload(step) || step.Commit? {
      UploadStepKeys(l, w, step);
    } else if MovesJob(step) {
      JobStepKeys(l, w, step);
    } else {
      OtherStepKeys(l, w, step);
    }
  }

  /** In every reachable state a session's noted key is a manifest key. */
  lemma {:induction false} RunKeys(l: Lib, w: World, steps: seq<Step>)
    requires IsRun(l, w, steps) && KeysOk(w.cat.sessions)
    ensures KeysOk(After(l, w, steps).cat.sessions)
    decreases |steps|
  {
    hide Enabled, Apply, KeysOk;
    if steps != [] {
      StepKeys(l, w, steps[0]);
      RunKeys(l, Apply(l, w, steps[0]), steps[1..]);
    }
  }

  // ---- the object counter ----

  /** Chunk rows of different sessions never name the same object. */
  lemma ChunksApart(c: Catalog, a: Id, b: Id, k: Key)
    requires CatalogOk(c) && a != b && k in ChunkKeysOf(c, a)
    ensures k !in ChunkKeysOf(c, b) && k.ChunkKey?
  {
    hide OperationRowsOk, StatusOk, RefsOk, LinksOk, SessionRowsOk, SnapshotRowsOk, UniqueOk;
    var r :| r in c.chunks && c.chunks[r].session == a && c.chunks[r].key == k;
    if k in ChunkKeysOf(c, b) {
      var q :| q in c.chunks && c.chunks[q].session == b && c.chunks[q].key == k;
      if r.0 != q.0 {
        NamesApart(c, r.0, q.0);
      }
      assert false;
    }
  }

  /** The key was noted by one of these sessions. */
  predicate Noted(uploads: seq<AbandonedUpload>, key: Option<Key>) {
    key.Some? && exists i :: 0 <= i < |uploads| && uploads[i].manifestKey == key
  }

  /** How many sessions noted a key that an earlier one in the list had noted. */
  function Repeats(uploads: seq<AbandonedUpload>): nat {
    if uploads == [] then 0
    else
      var n := |uploads| - 1;
      Repeats(uploads[..n]) + (if Noted(uploads[..n], uploads[n].manifestKey) then 1 else 0)
  }

  /** All that one more session has in common with those before is the key it noted, if one of them noted it. */
  lemma InCommon(c: Catalog, uploads: seq<AbandonedUpload>, n: nat)
    requires CatalogOk(c) && KeysOk(c.sessions) && IsListing(c, uploads) && n == |uploads| - 1
    ensures TrackedAll(c, uploads[..n]) * Tracked(c, uploads[n])
         == if Noted(uploads[..n], uploads[n].manifestKey) then {uploads[n].manifestKey.value} else {}
  {
    hide CatalogOk, ChunkKeysOf;
    var before, last := uploads[..n], uploads[n];
    assert ListedUpload(c, last);
    forall k | k in TrackedAll(c, before) && k in Tracked(c, last)
      ensures last.manifestKey == Some(k) && Noted(before, Some(k))
    {
      TrackedMember(c, before, k);
      var i :| 0 <= i < n && k in Tracked(c, before[i]);
      assert before[i] == uploads[i] && ListedUpload(c, uploads[i]) && uploads[i].id != last.id;
      if k in ChunkKeysOf(c, uploads[i].id) {
        ChunksApart(c, uploads[i].id, last.id, k);
      } else if k in ChunkKeysOf(c, last.id) {
        ChunksApart(c, last.id, uploads[i].id, k);
      }
      assert uploads[i].manifestKey == Some(k);
    }
    if Noted(before, last.manifestKey) {
      var i :| 0 <= i < n && before[i].manifestKey == last.manifestKey;
      TrackedMember(c, before, last.manifestKey.value);
      assert last.manifestKey.value in Tracked(c, before[i]);
    }
  }

  lemma UnionSize<T>(a: set<T>, b: set<T>)
    ensures |a + b| + |a * b| == |a| + |b|
  {
    assert a + b == a + (b - a) && b == (b - a) + (b * a);
    assert |a + (b - a)| == |a| + |b - a| && |b| == |b - a| + |b * a|;
    assert a * b == b * a;
  }

  /** The seen set is per session, so what cleanup reports exceeds the number of distinct objects by exactly the
      number of sessions whose noted key an earlier one had noted. */
  lemma {:induction false} CountExceeds(c: Catalog, uploads: seq<AbandonedUpload>)
    requires CatalogOk(c) && KeysOk(c.sessions) && IsListing(c, uploads)
    ensures TrackedSum(c, uploads) == |TrackedAll(c, uploads)| + Repeats(uploads)
  {
    hide CatalogOk, KeysOk, Tracked, Noted, IsListing;
    if uploads != [] {
      var n := |uploads| - 1;
      ShorterListing(c, uploads, n);
      CountExceeds(c, uploads[..n]);
      InCommon(c, uploads, n);
      UnionSize(TrackedAll(c, uploads[..n]), Tracked(c, uploads[n]));
    }
  }

  lemma ShorterListing(c: Catalog, uploads: seq<AbandonedUpload>, n: nat)
    requires IsListing(c, uploads) && n <= |uploads|
    ensures IsListing(c, uploads[..n])
  {
    hide ListedUpload;
  }

  ghost predicate NotedApart(uploads: seq<AbandonedUpload>) {
    forall i, j :: 0 <= i < j < |uploads| && uploads[i].manifestKey.Some? ==>
      uploads[i].manifestKey != uploads[j].manifestKey
  }

  lemma {:induction false} NoRepeats(uploads: seq<AbandonedUpload>)
    ensures Repeats(uploads) == 0 <==> NotedApart(uploads)
  {
    if uploads != [] {
      var n := |uploads| - 1;
      NoRepeats(uploads[..n]);
      assert forall i :: 0 <= i < n ==> uploads[..n][i] == uploads[i];
      if NotedApart(uploads[..n]) && !Noted(uploads[..n], uploads[n].manifestKey) {
        forall i, j | 0 <= i < j < |uploads| && uploads[i].manifestKey.Some?
          ensures uploads[i].manifestKey != uploads[j].manifestKey
        {
          assert uploads[..n][i] == uploads[i];
        }
      }
    }
  }

  /** The count is the number of distinct objects if and only if no two listed sessions noted the same key: chunks
      of different sessions are different objects, and no chunk is a manifest. */
  lemma CountIsDistinct(c: Catalog, uploads: seq<AbandonedUpload>)
    requires CatalogOk(c) && KeysOk(c.sessions) && IsListing(c, uploads)
    ensures |TrackedAll(c, uploads)| <= TrackedSum(c, uploads)
    ensures TrackedSum(c, uploads) == |TrackedAll(c, uploads)| <==> NotedApart(uploads)
  {
    hide CatalogOk, KeysOk, IsListing, NotedApart;
    CountExceeds(c, uploads);
    NoRepeats(uploads);
  }

  // ---- what cleanup spares ----

  /** No listed session has noted the manifest of this snapshot. */
  ghost predicate KeyUnlisted(uploads: seq<AbandonedUpload>, key: Option<Key>) {
    forall i :: 0 <= i < |uploads| && uploads[i].manifestKey.Some? ==> uploads[i].manifestKey != key
  }

  /** A chunk a failed session tracks belongs to another snapshot than any committed one. */
  lemma ChunkElsewhere(c: Catalog, a: AbandonedUpload, s: Id, k: Key)
    requires CatalogOk(c) && ListedUpload(c, a) && s in c.snapshots && c.snapshots[s].status == Committed
    requires k in ChunkKeysOf(c, a.id)
    ensures k.ds != c.datasets[c.snapshots[s].dataset] || k.snapshot != c.snapshots[s].name
  {
    hide OperationRowsOk, RefsOk, LinksOk, SessionRowsOk, UniqueOk;
    var r :| r in c.chunks && c.chunks[r].session == a.id && c.chunks[r].key == k;
    assert c.sessions[a.id].snapshot == Some(r.0);
    NamesApart(c, r.0, s);
  }

  lemma TrackedElsewhere(c: Catalog, uploads: seq<AbandonedUpload>, s: Id, k: Key)
    requires CatalogOk(c) && KeysOk(c.sessions) && IsListing(c, uploads) && k in TrackedAll(c, uploads)
    requires s in c.snapshots && c.snapshots[s].status == Committed
    requires c.snapshots[s].manifestKey == Some(ManifestKey(c.datasets[c.snapshots[s].dataset], c.snapshots[s].name))
    requires KeyUnlisted(uploads, c.snapshots[s].manifestKey)
    ensures k.ds != c.datasets[c.snapshots[s].dataset] || k.snapshot != c.snapshots[s].name
  {
    hide ChunkKeysOf, ChunkRowsOk, SessionRowsOk, OperationRowsOk, UniqueOk, StatusOk, RefsOk, LinksOk;
    TrackedMember(c, uploads, k);
    var i :| 0 <= i < |uploads| && k in Tracked(c, uploads[i]);
    if k in ChunkKeysOf(c, uploads[i].id) {
      ChunkElsewhere(c, uploads[i], s, k);
    } else {
      assert uploads[i].manifestKey == Some(k);
    }
  }

  lemma CommittedKey(l: Lib, w: World, s: Id)
    requires Inv(l, w) && s in w.cat.snapshots && w.cat.snapshots[s].status == Committed
    ensures s in w.sent && w.sent[s].1.snap == s && Archived(l, w.cat, w.store, w.sent[s].0, w.sent[s].1)
    ensures var u := w.sent[s].1; var row := w.cat.snapshots[s];
      && row.dataset in w.cat.datasets && u.req.ds == w.cat.datasets[row.dataset] && u.req.name == row.name
      && row.manifestKey == Some(ManifestKey(u.req.ds, u.req.name))
  {
    hide CatalogOk, LiveOk, WorkerOk, ModeOk, IssuedOk, Holds, HoldsManifest, RowsWritten;
  }

  lemma ObjectsSpared(l: Lib, w: World, uploads: seq<AbandonedUpload>, s: Id)
    requires Inv(l, w) && KeysOk(w.cat.sessions) && IsListing(w.cat, uploads)
    requires s in w.cat.snapshots && w.cat.snapshots[s].status == Committed
    requires KeyUnlisted(uploads, w.cat.snapshots[s].manifestKey)
    ensures s in w.sent
    ensures SameObjects(w.store, w.store - TrackedAll(w.cat, uploads), w.sent[s].1.req.ds, w.sent[s].1.req.name)
  {
    hide CommittedOk, LiveOk, WorkerOk, ModeOk, IssuedOk, CatalogOk, TrackedAll, Archived, KeyUnlisted, IsListing, KeysOk;
    CommittedKey(l, w, s);
    var u := w.sent[s].1;
    forall k: Key | k.ds == u.req.ds && k.snapshot == u.req.name ensures k !in TrackedAll(w.cat, uploads) {
      if k in TrackedAll(w.cat, uploads) {
        TrackedElsewhere(w.cat, uploads, s, k);
      }
    }
  }

  /** After cleanup a committed snapshot restores as before if and only if no listed session has noted its
      manifest's key; otherwise it does not restore at all. */
  lemma CleanupSpares(l: Lib, w: World, uploads: seq<AbandonedUpload>, s: Id)
    requires Lawful(l) && Inv(l, w) && KeysOk(w.cat.sessions) && IsListing(w.cat, uploads)
    requires s in w.cat.snapshots && w.cat.snapshots[s].status == Committed
    ensures var row := w.cat.snapshots[s];
      && row.manifestKey.Some? && Restored(l, w.store, row.manifestKey.value).Some?
      && var after := Restored(l, w.store - TrackedAll(w.cat, uploads), row.manifestKey.value);
         && (KeyUnlisted(uploads, row.manifestKey) ==> after == Restored(l, w.store, row.manifestKey.value))
         && (!KeyUnlisted(uploads, row.manifestKey) ==> after == None)
  {
    hide CommittedOk, LiveOk, WorkerOk, ModeOk, IssuedOk, CatalogOk, TrackedAll, Inv, Holds, HoldsManifest, RowsWritten;
    hide ReadChunks, RowMatches, KeysOk, IsListing;
    CommittedKey(l, w, s);
    var u := w.sent[s].1;
    var left := w.store - TrackedAll(w.cat, uploads);
    HeldStreamRestores(l, w.store, u.req, u.parts);
    if KeyUnlisted(uploads, w.cat.snapshots[s].manifestKey) {
      ObjectsSpared(l, w, uploads, s);
      HoldsFrame(l, w.store, left, u.req, u.parts);
      HeldStreamRestores(l, left, u.req, u.parts);
    } else {
      var i :| 0 <= i < |uploads| && uploads[i].manifestKey.Some? && uploads[i].manifestKey == w.cat.snapshots[s].manifestKey;
      TrackedMember(w.cat, uploads, uploads[i].manifestKey.value);
      assert uploads[i].manifestKey.value in Tracked(w.cat, uploads[i]);
    }
  }

  lemma AllRemovable(c: Catalog, uploads: seq<AbandonedUpload>)
    requires CatalogOk(c) && IsListing(c, uploads)
    ensures Removable(c, {}, SnapshotsOf(uploads), IdsOf(uploads))
  {
    hide SnapshotRowsOk, SessionRowsOk, ChunkRowsOk, OperationRowsOk, UniqueOk, StatusOk, LinksOk;
    forall s | s in SnapshotsOf(uploads) ensures !Referenceable(c.snapshots, c.sessions, s) {
      var i :| 0 <= i < |uploads| && uploads[i].snapshot == Some(s);
      assert ListedUpload(c, uploads[i]);
    }
    forall f | f in c.sessions && f in IdsOf(uploads) && c.sessions[f].snapshot.Some?
      ensures c.sessions[f].snapshot.value in SnapshotsOf(uploads)
    {
      var i :| 0 <= i < |uploads| && uploads[i].id == f;
      assert ListedUpload(c, uploads[i]);
    }
  }

  function CleanedWorld(w: World, uploads: seq<AbandonedUpload>): World {
    w.(cat := CleanedRows(w.cat, uploads), store := w.store - TrackedAll(w.cat, uploads))
  }

  /** Cleanup at startup keeps the invariant when no listed session has noted a committed snapshot's manifest. */
  lemma CleanupKeeps(l: Lib, w: World, uploads: seq<AbandonedUpload>)
    requires Inv(l, w) && w.mode == Starting && KeysOk(w.cat.sessions) && IsListing(w.cat, uploads)
    requires forall s :: s in w.cat.snapshots && w.cat.snapshots[s].status == Committed ==>
      KeyUnlisted(uploads, w.cat.snapshots[s].manifestKey)
    ensures Inv(l, CleanedWorld(w, uploads)) && KeysOk(CleanedWorld(w, uploads).cat.sessions)
  {
    hide CatalogOk, LiveOk, WorkerOk, TrackedAll, Removable, KeysOk, IsListing, KeyUnlisted, Archived, SnapshotsOf, IdsOf;
    PurgeKeys(w.cat, {}, SnapshotsOf(uploads), IdsOf(uploads));
    AllRemovable(w.cat, uploads);
    PurgeCatalog(w.cat, {}, SnapshotsOf(uploads), IdsOf(uploads));
    var w1 := w.(store := w.store - TrackedAll(w.cat, uploads));
    forall s | s in w.cat.snapshots && w.cat.snapshots[s].status == Committed
      ensures s in w.sent && SameUploadRows(w.cat, w.cat, w.sent[s].0, w.sent[s].1)
      ensures SameObjects(w.store, w1.store, w.sent[s].1.req.ds, w.sent[s].1.req.name)
    {
      ObjectsSpared(l, w, uploads, s);
      SelfRows(l, w, s);
    }
    CommittedFrame(l, w, w1, {});
    PurgeCommitted(l, w1, CleanedWorld(w, uploads), {}, SnapshotsOf(uploads), IdsOf(uploads));
    IdleKeeps(l, w, CleanedWorld(w, uploads));
  }

  lemma SelfRows(l: Lib, w: World, s: Id)
    requires Inv(l, w) && s in w.cat.snapshots && w.cat.snapshots[s].status == Committed && s in w.sent
    ensures SameUploadRows(w.cat, w.cat, w.sent[s].0, w.sent[s].1)
  {
    hide CatalogOk, LiveOk, WorkerOk, ModeOk, IssuedOk, Holds, HoldsManifest;
  }

  // ---- how a listed session comes to name a committed snapshot's manifest ----

  /** A session that noted its manifest and then failed keeps the key, and a retry under the same name cuts it off
      from its snapshot but not from the key; the retry's own manifest has that very key. */
  lemma RetryReusesKey(c: Catalog, e: Id, u: Upload, t: Start)
    requires e in c.sessions && u.snap in c.snapshots && e != t.sess
    requires c.sessions[e].snapshot == Some(u.snap) && c.sessions[e].manifestKey == Some(ManifestKey(u.req.ds, u.req.name))
    requires t.previous == Some(u.snap) && t.req.ds == u.req.ds && t.req.name == u.req.name
    ensures var retried := StartRows(FailRows(c, e, u), t);
      && e in retried.sessions && retried.sessions[e].status == SessionFailed && retried.sessions[e].snapshot == None
      && retried.sessions[e].manifestKey == Some(ManifestKey(t.req.ds, t.req.name))
  {
    hide SetOperationStatus;
    var c1 := SetSessionStatus(SetSnapshotStatus(c, u.snap, Failed), e, SessionFailed);
    MarkingRows(c1, u.op, OpFailed);
  }

  // ---- what cleanup leaves, row by row ----

  ghost predicate IsListedSession(uploads: seq<AbandonedUpload>, e: Id) {
    exists i :: 0 <= i < |uploads| && uploads[i].id == e
  }

  /** The snapshot of a listed session. */
  ghost predicate HasListedSession(c: Catalog, uploads: seq<AbandonedUpload>, s: Id) {
    exists e :: e in c.sessions && IsListedSession(uploads, e) && c.sessions[e].snapshot == Some(s)
  }

  /** A listed session recorded a chunk under this key, or noted it for its manifest. */
  ghost predicate KeyOfListed(c: Catalog, uploads: seq<AbandonedUpload>, k: Key) {
    || (exists r :: r in c.chunks && c.chunks[r].key == k && IsListedSession(uploads, c.chunks[r].session))
    || (exists e :: e in c.sessions && IsListedSession(uploads, e) && c.sessions[e].manifestKey == Some(k))
  }

  /** The listed sessions are gone with their snapshots and chunk rows; every other row is as it was, but for cleared
      references of operations to what is gone. */
  ghost predicate OnlyListedGone(a: Catalog, b: Catalog, uploads: seq<AbandonedUpload>) {
    && b.datasets == a.datasets && SnapshotsKept(a, b, uploads) && SessionsKept(a, b, uploads)
    && ChunksKept(a, b, uploads) && OperationsKept(a, b, uploads)
  }

  ghost predicate SnapshotsKept(a: Catalog, b: Catalog, uploads: seq<AbandonedUpload>) {
    forall s :: (s in b.snapshots <==> s in a.snapshots && !HasListedSession(a, uploads, s))
                && (s in b.snapshots ==> b.snapshots[s] == a.snapshots[s])
  }

  ghost predicate SessionsKept(a: Catalog, b: Catalog, uploads: seq<AbandonedUpload>) {
    forall e :: (e in b.sessions <==> e in a.sessions && !IsListedSession(uploads, e))
                && (e in b.sessions ==> b.sessions[e] == a.sessions[e])
  }

  ghost predicate ChunksKept(a: Catalog, b: Catalog, uploads: seq<AbandonedUpload>) {
    forall k :: (k in b.chunks <==> k in a.chunks && !IsListedSession(uploads, a.chunks[k].session))
                && (k in b.chunks ==> b.chunks[k] == a.chunks[k])
  }

  ghost predicate OperationsKept(a: Catalog, b: Catalog, uploads: seq<AbandonedUpload>) {
    && b.operations.Keys == a.operations.Keys
    && forall o :: o in a.operations ==> OperationCleared(a, a.operations[o], b.operations[o], uploads)
  }

  ghost predicate OperationCleared(c: Catalog, a: Operation, b: Operation, uploads: seq<AbandonedUpload>) {
    && b.kind == a.kind && b.status == a.status && b.dataset == a.dataset
    && b.snapshot == (if a.snapshot.Some? && HasListedSession(c, uploads, a.snapshot.value) then None else a.snapshot)
    && b.session == (if a.session.Some? && IsListedSession(uploads, a.session.value) then None else a.session)
  }

  lemma ListedIds(c: Catalog, uploads: seq<AbandonedUpload>)
    requires IsListing(c, uploads)
    ensures forall e :: e in IdsOf(uploads) <==> IsListedSession(uploads, e)
    ensures forall s :: s in SnapshotsOf(uploads) <==> HasListedSession(c, uploads, s)
  {
    forall s ensures s in SnapshotsOf(uploads) <==> HasListedSession(c, uploads, s) {
      if s in SnapshotsOf(uploads) {
        var i :| 0 <= i < |uploads| && uploads[i].snapshot == Some(s);
        assert ListedUpload(c, uploads[i]) && IsListedSession(uploads, uploads[i].id);
      }
      if HasListedSession(c, uploads, s) {
        var e :| e in c.sessions && IsListedSession(uploads, e) && c.sessions[e].snapshot == Some(s);
        var i :| 0 <= i < |uploads| && uploads[i].id == e;
        assert ListedUpload(c, uploads[i]);
      }
    }
  }

  /** A session that stays shares its snapshot with none that goes, and a chunk row goes with its session. */
  lemma ListedApart(c: Catalog, uploads: seq<AbandonedUpload>)
    requires CatalogOk(c)
    ensures forall e :: e in c.sessions && !IsListedSession(uploads, e) && c.sessions[e].snapshot.Some? ==>
      !HasListedSession(c, uploads, c.sessions[e].snapshot.value)
    ensures forall k :: k in c.chunks ==>
      (HasListedSession(c, uploads, k.0) <==> IsListedSession(uploads, c.chunks[k].session))
  {
    hide SnapshotRowsOk, SessionRowsOk, OperationRowsOk, StatusOk, RefsOk, LinksOk, IsListedSession;
    forall k | k in c.chunks
      ensures HasListedSession(c, uploads, k.0) <==> IsListedSession(uploads, c.chunks[k].session)
    {
      var x := c.chunks[k].session;
      assert x in c.sessions && c.sessions[x].snapshot == Some(k.0);
    }
  }

  lemma CleanedSnapshots(c: Catalog, uploads: seq<AbandonedUpload>)
    requires IsListing(c, uploads)
    ensures SnapshotsKept(c, CleanedRows(c, uploads), uploads)
  {
    ListedIds(c, uploads);
    hide IsListing, IsListedSession, HasListedSession, SnapshotsOf, IdsOf;
  }

  lemma CleanedSessions(c: Catalog, uploads: seq<AbandonedUpload>)
    requires CatalogOk(c) && IsListing(c, uploads)
    ensures SessionsKept(c, CleanedRows(c, uploads), uploads)
  {
    hide CatalogOk, IsListing, IsListedSession, HasListedSession, SnapshotsOf, IdsOf;
    ListedIds(c, uploads);
    ListedApart(c, uploads);
    SessionsPurged(c, SnapshotsOf(uploads), IdsOf(uploads));
  }

  lemma SessionsPurged(c: Catalog, s: set<Id>, e: set<Id>)
    requires forall x :: x in c.sessions && x !in e && c.sessions[x].snapshot.Some? ==> c.sessions[x].snapshot.value !in s
    ensures var p := Purge(c, {}, s, e);
      forall x :: (x in p.sessions <==> x in c.sessions && x !in e) && (x in p.sessions ==> p.sessions[x] == c.sessions[x])
  {
  }

  lemma CleanedChunks(c: Catalog, uploads: seq<AbandonedUpload>)
    requires CatalogOk(c) && IsListing(c, uploads)
    ensures ChunksKept(c, CleanedRows(c, uploads), uploads)
  {
    ListedIds(c, uploads);
    ListedApart(c, uploads);
    hide CatalogOk, IsListing, IsListedSession, HasListedSession, SnapshotsOf, IdsOf;
  }

  lemma CleanedOperations(c: Catalog, uploads: seq<AbandonedUpload>)
    requires IsListing(c, uploads)
    ensures OperationsKept(c, CleanedRows(c, uploads), uploads) && CleanedRows(c, uploads).datasets == c.datasets
  {
    ListedIds(c, uploads);
    hide IsListing, IsListedSession, HasListedSession, SnapshotsOf, IdsOf;
  }

  lemma TrackedSaid(c: Catalog, uploads: seq<AbandonedUpload>, k: Key)
    requires IsListing(c, uploads)
    ensures k in TrackedAll(c, uploads) <==> KeyOfListed(c, uploads, k)
  {
    hide TrackedAll;
    TrackedMember(c, uploads, k);
    if i :| 0 <= i < |uploads| && k in Tracked(c, uploads[i]) {
      assert ListedUpload(c, uploads[i]) && IsListedSession(uploads, uploads[i].id);
      if k in ChunkKeysOf(c, uploads[i].id) {
        var r :| r in c.chunks && c.chunks[r].session == uploads[i].id && c.chunks[r].key == k;
        assert IsListedSession(uploads, c.chunks[r].session);
      }
    }
    if r :| r in c.chunks && c.chunks[r].key == k && IsListedSession(uploads, c.chunks[r].session) {
      var i :| 0 <= i < |uploads| && uploads[i].id == c.chunks[r].session;
      assert k in ChunkKeysOf(c, uploads[i].id) && k in Tracked(c, uploads[i]);
    }
    if e :| e in c.sessions && IsListedSession(uploads, e) && c.sessions[e].manifestKey == Some(k) {
      var i :| 0 <= i < |uploads| && uploads[i].id == e;
      assert ListedUpload(c, uploads[i]) && k in Tracked(c, uploads[i]);
    }
  }

  /** What is left of rows and objects when startup cleanup has gone through its listing. */
  lemma CleanedSaid(c: Catalog, store: Objects, uploads: seq<AbandonedUpload>)
    requires CatalogOk(c) && IsListing(c, uploads)
    ensures OnlyListedGone(c, CleanedRows(c, uploads), uploads)
    ensures forall k :: k in store - TrackedAll(c, uploads) <==> k in store && !KeyOfListed(c, uploads, k)
  {
    hide CatalogOk, IsListing, SnapshotsKept, SessionsKept, ChunksKept, OperationsKept, CleanedRows, TrackedAll, KeyOfListed;
    CleanedSnapshots(c, uploads);
    CleanedSessions(c, uploads);
    CleanedChunks(c, uploads);
    CleanedOperations(c, uploads);
    forall k ensures k in TrackedAll(c, uploads) <==> KeyOfListed(c, uploads, k) {
      TrackedSaid(c, uploads, k);
    }
  }
}
