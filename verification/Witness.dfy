/** Runs that exist: the machine can store any stream, and it can reach a state in which startup cleanup destroys a
    committed snapshot. */
module Witness {
  import opened Base
  import opened Manifests
  import opened Catalogs
  import opened Lineage
  import opened Streams
  import opened Machine
  import opened Invariant
  import opened SafetyEnd
  import opened SafetyStart
  import opened Theorems
  import opened LineageTheorems
  import opened UploadFrames
  import opened IngestSteps
  import opened Ingest
  import opened Abandoned
  import opened AbandonedTheorems

  lemma Served(l: Lib)
    ensures Runs(l, INITIAL, [Serve], INITIAL.(mode := Serving))
  {
    hide Inv;
    InitialInv(l);
    NoSteps(l, INITIAL);
    Took(l, INITIAL, [], INITIAL, Serve);
    assert [] + [Serve] == [Serve];
  }

  /** The upload is one put from being committed: its parts and its manifest are stored and its key is noted. */
  ghost predicate AtCommit(l: Lib, steps: seq<Step>, w: World, t: Start, data: Bytes) {
    && Runs(l, INITIAL, steps, w) && w.mode == Serving
    && t.sess in w.live && w.live[t.sess] == Upload(t.d, t.snap, t.op, t.req, [data], Ready)
    && t.sess in w.cat.sessions && w.cat.sessions[t.sess].manifestKey == Some(ManifestKey(t.req.ds, t.req.name))
  }

  /** One chunk is stored and recorded. */
  lemma OneChunk(l: Lib, before: seq<Step>, given: World, t: Start, data: Bytes)
    returns (steps: seq<Step>, w: World)
    requires Runs(l, INITIAL, before, given) && given.mode == Serving && CanStart(given, t) && data != []
    ensures Runs(l, INITIAL, steps, w) && w.mode == Serving && Kept(Started(given, t), w, t)
    ensures t.sess in w.live && w.live[t.sess] == Upload(t.d, t.snap, t.op, t.req, [data], Reading)
  {
    hide Runs, StartRows, InsertChunk, SetSessionStatus, CanStart, ChunkRowOf, Kept;
    var e := t.sess;
    TookStart(l, INITIAL, before, given, t);
    steps, w := before + [StartUpload(t)], Started(given, t);
    TookPut(l, INITIAL, steps, w, e, data);
    PutKept(w, t, data);
    steps, w := steps + [PutChunk(e, data)], ChunkPut(w, e, data);
    RunAccepted(l, INITIAL, steps, w, e);
    TookRecord(l, INITIAL, steps, w, e);
    RecordKept(l, w, t);
    KeptAgain(Started(given, t), w, ChunkRecorded(l, w, e), t);
    steps, w := steps + [RecordChunk(e)], ChunkRecorded(l, w, e);
    TookProgress(l, INITIAL, steps, w, e);
    MoveKept(w, t, WritingChunk, Reading);
    KeptAgain(Started(given, t), w, SessionMoved(w, e, WritingChunk, Reading), t);
    steps, w := steps + [Progress(e)], SessionMoved(w, e, WritingChunk, Reading);
    assert [] + [data] == [data];
  }

  lemma ToCommit(l: Lib, before: seq<Step>, given: World, t: Start, data: Bytes)
    returns (steps: seq<Step>, w: World)
    requires Lawful(l) && SafeNames(t.req) && data != []
    requires Runs(l, INITIAL, before, given) && given.mode == Serving && CanStart(given, t)
    ensures AtCommit(l, steps, w, t, data) && Kept(Started(given, t), w, t)
  {
    hide Runs, StartRows, SetSessionStatus, CanStart, ManifestOf, WellFormed, Concat, Kept;
    var e := t.sess;
    steps, w := OneChunk(l, before, given, t, data);
    ghost var start := Started(given, t);
    hide Started;
    ManifestComplete(l, INITIAL, steps, w, e);
    TookEnd(l, INITIAL, steps, w, e);
    MoveKept(w, t, CommittingManifest, Manifesting);
    KeptAgain(start, w, SessionMoved(w, e, CommittingManifest, Manifesting), t);
    steps, w := steps + [EndOfStream(e)], SessionMoved(w, e, CommittingManifest, Manifesting);
    TookManifest(l, INITIAL, steps, w, e);
    ManifestKept(l, w, t);
    KeptAgain(start, w, ManifestPut(l, w, e), t);
    steps, w := steps + [PutManifest(e)], ManifestPut(l, w, e);
    LiveSession(l, steps, w, e);
    TookKey(l, INITIAL, steps, w, e);
    ManifestKept(l, w, t);
    KeptAgain(start, w, ManifestKeySet(w, e), t);
    steps, w := steps + [SetManifestKey(e)], ManifestKeySet(w, e);
  }

  lemma LiveSession(l: Lib, steps: seq<Step>, w: World, e: Id)
    requires Runs(l, INITIAL, steps, w) && e in w.live
    ensures e in w.cat.sessions && w.cat.sessions[e].snapshot == Some(w.live[e].snap)
    ensures w.live[e].snap in w.cat.snapshots && w.cat.snapshots[w.live[e].snap].dataset == w.live[e].d
    ensures w.cat.snapshots[w.live[e].snap].name == w.live[e].req.name
    ensures w.live[e].d in w.cat.datasets && w.cat.datasets[w.live[e].d] == w.live[e].req.ds
  {
    hide Runs, Holds, RowsWritten, AtOk;
    LiveRow(l, INITIAL, steps, w, e);
  }

  /** Committing it makes the stream restorable, and touches no other row. */
  lemma Commits(l: Lib, before: seq<Step>, given: World, t: Start, data: Bytes)
    returns (steps: seq<Step>, w: World)
    requires Lawful(l) && AtCommit(l, before, given, t, data)
    ensures Runs(l, INITIAL, steps, w) && w.mode == Serving && Kept(given, w, t) && t.sess !in w.live
    ensures t.snap in w.cat.snapshots && w.cat.snapshots[t.snap].status == Committed
    ensures w.cat.snapshots[t.snap].dataset == t.d && w.cat.snapshots[t.snap].name == t.req.name
    ensures w.cat.snapshots[t.snap].manifestKey == Some(ManifestKey(t.req.ds, t.req.name))
    ensures w.cat.snapshots[t.snap].toGuid == t.req.toGuid
    ensures t.snap in w.sent && w.sent[t.snap] == (t.sess, Upload(t.d, t.snap, t.op, t.req, [data], Ready))
    ensures Restored(l, w.store, ManifestKey(t.req.ds, t.req.name)) == Some(data)
  {
    hide Runs, CommitRows, ManifestOf, WellFormed, Restored, Concat;
    var e := t.sess;
    LiveSession(l, before, given, e);
    CommitKeeps(l, given.cat, t, given.live[e]);
    ReadyManifest(l, before, given, e);
    TookCommit(l, INITIAL, before, given, e);
    steps, w := before + [Commit(e)], UploadCommitted(l, given, e);
    CommittedArchived(l, INITIAL, steps, w, t.snap);
    HeldStreamRestores(l, w.store, t.req, [data]);
    OnePart(data);
  }

  lemma ReadyManifest(l: Lib, steps: seq<Step>, w: World, e: Id)
    requires Runs(l, INITIAL, steps, w) && e in w.live && w.live[e].at.Ready?
    ensures WellFormed(ManifestOf(l, w.live[e].req, w.live[e].parts))
  {
    hide Runs, Holds, RowsWritten, WellFormed, ManifestOf;
    LiveRow(l, INITIAL, steps, w, e);
  }

  lemma OnePart(data: Bytes)
    ensures Concat([data]) == data
  {
    assert [data][..0] == [];
  }

  lemma RunsAre(l: Lib, w0: World, steps: seq<Step>, w: World)
    requires Runs(l, w0, steps, w)
    ensures IsRun(l, w0, steps) && After(l, w0, steps) == w && Inv(l, w)
  {
    hide Inv, IsRun, After;
  }

  // ---- any stream can be stored ----

  function FirstStart(req: Request): Start {
    Start(0, req, None, None, 1, 2, 3, 0)
  }

  lemma FirstAdmitted(req: Request)
    requires req.base == "" && SafeNames(req)
    ensures CanStart(INITIAL.(mode := Serving), FirstStart(req))
  {
  }

  /** From the empty service there is a run that stores any given non-empty bytes under any complete name, commits
      them, and leaves them restorable. */
  lemma AnyStreamCanBeStored(l: Lib, req: Request, data: Bytes) returns (steps: seq<Step>, w: World)
    requires Lawful(l) && req.base == "" && data != [] && SafeNames(req)
    ensures IsRun(l, INITIAL, steps) && After(l, INITIAL, steps) == w
    ensures var s := FirstStart(req).snap; s in w.cat.snapshots && w.cat.snapshots[s].status == Committed
    ensures Restored(l, w.store, ManifestKey(req.ds, req.name)) == Some(data)
  {
    hide Runs, AtCommit, IsRun, After, Restored, CanStart, Started;
    Served(l);
    FirstAdmitted(req);
    var t := FirstStart(req);
    steps, w := ToCommit(l, [Serve], INITIAL.(mode := Serving), t, data);
    steps, w := Commits(l, steps, w, t, data);
    RunsAre(l, INITIAL, steps, w);
  }

  /** One stream is stored, and there is nothing else. */
  ghost predicate OneStored(w: World, req: Request) {
    && w.mode == Serving && w.live == map[] && w.jobs == [] && w.deletion == None && w.issued == {0, 1, 2, 3}
    && w.cat.datasets == map[0 := req.ds] && w.cat.snapshots.Keys == {1} && w.cat.sessions.Keys == {2}
    && w.cat.operations.Keys == {3}
    && w.cat.snapshots[1].status == Committed && w.cat.snapshots[1].dataset == 0
    && w.cat.snapshots[1].name == req.name && w.cat.snapshots[1].parent == None
    && w.cat.snapshots[1].manifestKey == Some(ManifestKey(req.ds, req.name)) && w.cat.snapshots[1].toGuid == req.toGuid
    && w.cat.sessions[2].base == None && w.cat.sessions[2].snapshot == Some(1)
  }

  lemma FirstStored(l: Lib, req: Request, data: Bytes) returns (steps: seq<Step>, w: World)
    requires Lawful(l) && req.base == "" && data != [] && SafeNames(req)
    ensures Runs(l, INITIAL, steps, w) && OneStored(w, req)
    ensures 1 in w.sent && w.sent[1] == (2, Upload(0, 1, 3, req, [data], Ready))
    ensures Restored(l, w.store, ManifestKey(req.ds, req.name)) == Some(data)
  {
    hide Runs, AtCommit, Restored, CanStart, Kept;
    Served(l);
    FirstAdmitted(req);
    var t := FirstStart(req);
    var start := Started(INITIAL.(mode := Serving), t);
    steps, w := ToCommit(l, [Serve], INITIAL.(mode := Serving), t, data);
    var ready := w;
    steps, w := Commits(l, steps, w, t, data);
    KeptAgain(start, ready, w, t);
    StoredFirst(l, steps, w, start, req);
  }

  lemma StoredFirst(l: Lib, steps: seq<Step>, w: World, start: World, req: Request)
    requires Runs(l, INITIAL, steps, w) && w.mode == Serving && FirstStart(req).sess !in w.live
    requires start == Started(INITIAL.(mode := Serving), FirstStart(req)) && Kept(start, w, FirstStart(req))
    requires 1 in w.cat.snapshots && w.cat.snapshots[1].status == Committed
    requires w.cat.snapshots[1].dataset == 0 && w.cat.snapshots[1].name == req.name
    requires w.cat.snapshots[1].manifestKey == Some(ManifestKey(req.ds, req.name)) && w.cat.snapshots[1].toGuid == req.toGuid
    ensures OneStored(w, req)
  {
    hide Runs;
    assert w.live == w.live - {2} == start.live - {2} == map[];
    assert w.cat.snapshots[1].parent == start.cat.snapshots[1].parent == None;
    assert w.cat.sessions[2].base == None;
    CommittedSession(l, steps, w);
  }

  lemma CommittedSession(l: Lib, steps: seq<Step>, w: World)
    requires Runs(l, INITIAL, steps, w) && 1 in w.cat.snapshots && w.cat.snapshots[1].status == Committed
    requires w.cat.sessions.Keys == {2}
    ensures w.cat.sessions[2].snapshot == Some(1)
  {
    hide Runs, RowsWritten, Holds, HoldsManifest, Concat;
    CommittedArchived(l, INITIAL, steps, w, 1);
    RunsAre(l, INITIAL, steps, w);
    SentIs(l, w, 1);
  }

  lemma SentIs(l: Lib, w: World, s: Id)
    requires Inv(l, w) && s in w.cat.snapshots && w.cat.snapshots[s].status == Committed
    ensures s in w.sent && w.sent[s].1.snap == s && w.sent[s].0 in w.cat.sessions
    ensures w.cat.sessions[w.sent[s].0].snapshot == Some(s)
  {
    hide CatalogOk, LiveOk, WorkerOk, ModeOk, IssuedOk, RowsWritten, Holds, HoldsManifest;
  }

  // ---- startup cleanup can destroy a committed snapshot ----

  function RetryStart(req: Request): Start {
    Start(0, req, None, Some(1), 4, 5, 6, 0)
  }

  /** After the first upload has noted its manifest and failed, a retry is admitted. */
  lemma FailedThenRetry(l: Lib, before: seq<Step>, given: World, req: Request, data: Bytes)
    returns (steps: seq<Step>, w: World)
    requires req.base == "" && SafeNames(req) && given.issued == {0, 1, 2, 3}
    requires AtCommit(l, before, given, FirstStart(req), data)
    ensures Runs(l, INITIAL, steps, w) && w.mode == Serving && w.issued == {0, 1, 2, 3} && CanStart(w, RetryStart(req))
    ensures 2 in w.cat.sessions && w.cat.sessions[2].status == SessionFailed && w.cat.sessions[2].snapshot == Some(1)
    ensures w.cat.sessions[2].manifestKey == Some(ManifestKey(req.ds, req.name))
  {
    hide Runs, FailRows;
    LiveSession(l, before, given, 2);
    FailedRows(given.cat, 2, given.live[2]);
    NoDeletion(l, before, given, 2);
    TookFail(l, INITIAL, before, given, 2);
    steps, w := before + [Fail(2)], UploadFailed(given, 2);
    NotBlocked(l, steps, w, 2);
  }

  lemma FailedRows(c: Catalog, e: Id, u: Upload)
    requires u.snap in c.snapshots && e in c.sessions
    ensures var a := FailRows(c, e, u);
      && a.datasets == c.datasets && u.snap in a.snapshots
      && a.snapshots[u.snap] == c.snapshots[u.snap].(status := Failed)
      && e in a.sessions && a.sessions[e] == c.sessions[e].(status := SessionFailed)
  {
  }

  lemma NotBlocked(l: Lib, steps: seq<Step>, w: World, e: Id)
    requires Runs(l, INITIAL, steps, w) && e in w.cat.sessions && w.cat.sessions[e].status == SessionFailed
    requires w.cat.sessions[e].snapshot.Some?
    ensures !Blocked(w.cat, {w.cat.sessions[e].snapshot.value}, {})
  {
    hide Inv, Blocked;
    RunsAre(l, INITIAL, steps, w);
    InvParts(l, w);
    var a := AbandonedUpload(e, w.cat.sessions[e].snapshot, w.cat.sessions[e].manifestKey);
    NeverBlocked(w.cat, a);
  }

  lemma NoDeletion(l: Lib, steps: seq<Step>, w: World, e: Id)
    requires Runs(l, INITIAL, steps, w) && e in w.live
    ensures !DeletingIn(w, w.live[e].d)
  {
    hide CatalogOk, CommittedOk, LiveOk, ModeOk, IssuedOk, IsRun, After;
    NotDeleting(w, e);
  }

  lemma RetryKeepsSession(c: Catalog, t: Start, e: Id)
    requires e in c.sessions && c.sessions[e].snapshot == t.previous && t.previous.Some? && e != t.sess
    ensures var a := StartRows(c, t); e in a.sessions && a.sessions[e] == c.sessions[e].(snapshot := None)
  {
  }

  lemma CrashKeeps(l: Lib, steps: seq<Step>, w: World)
    requires Runs(l, INITIAL, steps, w)
    ensures Runs(l, INITIAL, steps + [Crash], Crashed(w))
  {
    hide Runs;
    Took(l, INITIAL, steps, w, Crash);
  }

  /** There is a run, ending in a restart, after which a committed snapshot restores and cleaning up a listed
      session makes it unrestorable: the session of a failed first attempt still names the manifest that the retry
      has written. */
  lemma CleanupCanDestroy(l: Lib, req: Request, data: Bytes)
    returns (steps: seq<Step>, w: World, uploads: seq<AbandonedUpload>)
    requires Lawful(l) && req.base == "" && data != [] && SafeNames(req)
    ensures IsRun(l, INITIAL, steps) && After(l, INITIAL, steps) == w && w.mode == Starting
    ensures Abandoned.IsListing(w.cat, uploads)
    ensures var s, key := RetryStart(req).snap, ManifestKey(req.ds, req.name);
      && s in w.cat.snapshots && w.cat.snapshots[s].status == Committed
      && Restored(l, w.store, key) == Some(data)
      && Restored(l, w.store - TrackedAll(w.cat, uploads), key) == None
  {
    hide Runs, IsRun, After, Restored, CanStart, StartRows, AtCommit, KeptRows;
    var first, retry := FirstStart(req), RetryStart(req);
    Served(l);
    FirstAdmitted(req);
    steps, w := ToCommit(l, [Serve], INITIAL.(mode := Serving), first, data);
    assert w.issued == {0, 1, 2, 3};
    steps, w := FailedThenRetry(l, steps, w, req, data);
    RetryKeepsSession(w.cat, retry, 2);
    var start := Started(w, retry);
    hide Kept;
    steps, w := ToCommit(l, steps, w, retry, data);
    KeptSession(start, w, retry, 2);
    ghost var ready := w;
    steps, w := Commits(l, steps, w, retry, data);
    KeptSession(ready, w, retry, 2);
    CrashKeeps(l, steps, w);
    steps, w := steps + [Crash], Crashed(w);
    var key := ManifestKey(req.ds, req.name);
    uploads := [AbandonedUpload(2, None, Some(key))];
    RunsAre(l, INITIAL, steps, w);
    DestroyedBy(l, w, uploads, key);
  }

  lemma DestroyedBy(l: Lib, w: World, uploads: seq<AbandonedUpload>, key: Key)
    requires uploads == [AbandonedUpload(2, None, Some(key))]
    ensures Restored(l, w.store - TrackedAll(w.cat, uploads), key) == None
  {
    TrackedMember(w.cat, uploads, key);
    assert key in Tracked(w.cat, uploads[0]);
  }

  // ---- the cleanup counter can count an object twice ----

  /** There is a run, ending in a restart, with two failed attempts that noted the same manifest: cleanup of the two
      reports one object more than there are. */
  lemma CleanupCountsTwice(l: Lib, req: Request, data: Bytes)
    returns (steps: seq<Step>, w: World, uploads: seq<AbandonedUpload>)
    requires Lawful(l) && req.base == "" && data != [] && SafeNames(req)
    ensures IsRun(l, INITIAL, steps) && After(l, INITIAL, steps) == w && w.mode == Starting
    ensures Abandoned.IsListing(w.cat, uploads)
    ensures TrackedSum(w.cat, uploads) == |TrackedAll(w.cat, uploads)| + 1
  {
    hide Runs, IsRun, After, CanStart, StartRows, FailRows, Inv, TrackedAll, TrackedSum, KeptRows;
    var first, retry := FirstStart(req), RetryStart(req);
    var key := ManifestKey(req.ds, req.name);
    Served(l);
    FirstAdmitted(req);
    steps, w := ToCommit(l, [Serve], INITIAL.(mode := Serving), first, data);
    steps, w := FailedThenRetry(l, steps, w, req, data);
    RetryKeepsSession(w.cat, retry, 2);
    var start := Started(w, retry);
    hide Kept;
    steps, w := ToCommit(l, steps, w, retry, data);
    KeptSession(start, w, retry, 2);
    steps, w := SecondFails(l, steps, w, req, data);
    CrashKeeps(l, steps, w);
    steps, w := steps + [Crash], Crashed(w);
    uploads := [AbandonedUpload(2, None, Some(key)), AbandonedUpload(5, Some(4), Some(key))];
    RunsAre(l, INITIAL, steps, w);
    CountedTwice(l, steps, w, uploads, key);
  }

  lemma SecondFails(l: Lib, before: seq<Step>, given: World, req: Request, data: Bytes)
    returns (steps: seq<Step>, w: World)
    requires AtCommit(l, before, given, RetryStart(req), data)
    ensures Runs(l, INITIAL, steps, w)
    ensures 2 in given.cat.sessions ==> 2 in w.cat.sessions && w.cat.sessions[2] == given.cat.sessions[2]
    ensures 5 in w.cat.sessions && w.cat.sessions[5].status == SessionFailed && w.cat.sessions[5].snapshot == Some(4)
    ensures w.cat.sessions[5].manifestKey == Some(ManifestKey(req.ds, req.name))
  {
    hide Runs, FailRows;
    LiveSession(l, before, given, 5);
    FailedRows(given.cat, 5, given.live[5]);
    FailKeeps(given.cat, RetryStart(req), given.live[5]);
    TookFail(l, INITIAL, before, given, 5);
    steps, w := before + [Fail(5)], UploadFailed(given, 5);
  }

  lemma CountedTwice(l: Lib, steps: seq<Step>, w: World, uploads: seq<AbandonedUpload>, key: Key)
    requires IsRun(l, INITIAL, steps) && After(l, INITIAL, steps) == w && Abandoned.IsListing(w.cat, uploads)
    requires |uploads| == 2 && uploads[0].manifestKey == uploads[1].manifestKey == Some(key)
    ensures TrackedSum(w.cat, uploads) == |TrackedAll(w.cat, uploads)| + 1
  {
    hide IsRun, After, Inv, TrackedAll, TrackedSum, Abandoned.IsListing;
    InitialInv(l);
    RunKeeps(l, INITIAL, steps);
    InvParts(l, w);
    RunKeys(l, INITIAL, steps);
    hide CatalogOk, KeysOk;
    CountExceeds(w.cat, uploads);
    assert uploads[..1] == [uploads[0]] && [uploads[0]][..0] == [];
    assert uploads[..1][0].manifestKey == Some(key);
    assert Repeats(uploads) == Repeats(uploads[..1]) + 1;
    assert Repeats([uploads[0]]) == 0;
  }
}
