/** What holds in every reachable state of every run. */
module Theorems {
  import opened Base
  import opened Manifests
  import opened Catalogs
  import opened Lineage
  import opened Streams
  import opened Machine
  import opened Invariant
  import opened SafetyStart

  ghost predicate Reachable(l: Lib, w: World) {
    exists steps :: IsRun(l, INITIAL, steps) && After(l, INITIAL, steps) == w
  }

  lemma ReachableInv(l: Lib, w: World)
    requires Reachable(l, w)
    ensures Inv(l, w)
  {
    hide Inv, Enabled, Apply, IsRun, After;
    var steps :| IsRun(l, INITIAL, steps) && After(l, INITIAL, steps) == w;
    InitialInv(l);
    RunKeeps(l, INITIAL, steps);
  }

  // ---- what the client sent ----

  /** The data of the chunk writes of one session, in order. */
  function DataOf(steps: seq<Step>, e: Id): seq<Bytes> {
    if steps == [] then []
    else
      var before := DataOf(steps[..|steps| - 1], e);
      match steps[|steps| - 1]
      case PutChunk(f, data) => if f == e then before + [data] else before
      case _ => before
  }

  function Pending(u: Upload): seq<Bytes> {
    match u.at
    case Stored(data) => [data]
    case _ => []
  }

  /** Running and committed uploads hold exactly the data their session has written so far. */
  ghost predicate DataOk(w: World, done: seq<Step>) {
    && w.live.Keys <= w.issued && (forall e :: e in w.live ==> DataOf(done, e) == w.live[e].parts + Pending(w.live[e]))
    && (forall s :: s in w.sent ==>
          && w.sent[s].0 in w.issued && w.sent[s].0 !in w.live
          && DataOf(done, w.sent[s].0) == w.sent[s].1.parts)
    && (forall e :: e !in w.issued ==> DataOf(done, e) == [])
  }

  lemma DataSnoc(done: seq<Step>, step: Step, e: Id)
    ensures DataOf(done + [step], e) ==
      if step.PutChunk? && step.e == e then DataOf(done, e) + [step.data] else DataOf(done, e)
  {
    assert (done + [step])[..|done|] == done;
  }

  /** A step that writes no chunk and moves no upload's data. */
  ghost predicate SameData(w: World, w': World) {
    && w'.sent == w.sent && w.issued <= w'.issued
    && (forall e :: e in w'.live ==>
          e in w.live && w'.live[e].parts + Pending(w'.live[e]) == w.live[e].parts + Pending(w.live[e]))
  }

  lemma DataSame(w: World, w': World, step: Step, done: seq<Step>)
    requires DataOk(w, done) && !step.PutChunk? && SameData(w, w')
    ensures DataOk(w', done + [step])
  {
    hide DataOf, Pending;
    forall e ensures DataOf(done + [step], e) == DataOf(done, e) {
      DataSnoc(done, step, e);
    }
  }

  lemma DataStart(w: World, t: Start, done: seq<Step>)
    requires DataOk(w, done) && CanStart(w, t)
    ensures DataOk(Started(w, t), done + [StartUpload(t)])
  {
    hide DataOf, StartRows, Acyclic;
    forall e ensures DataOf(done + [StartUpload(t)], e) == DataOf(done, e) {
      DataSnoc(done, StartUpload(t), e);
    }
  }

  lemma DataPut(w: World, f: Id, data: Bytes, done: seq<Step>)
    requires DataOk(w, done) && CanPutChunk(w, f, data)
    ensures DataOk(ChunkPut(w, f, data), done + [PutChunk(f, data)])
  {
    hide DataOf;
    forall e ensures DataOf(done + [PutChunk(f, data)], e) ==
      if e == f then DataOf(done, e) + [data] else DataOf(done, e)
    {
      DataSnoc(done, PutChunk(f, data), e);
    }
  }

  lemma DataCommit(l: Lib, w: World, f: Id, done: seq<Step>)
    requires DataOk(w, done) && f in w.live && w.live[f].at.Ready?
    ensures DataOk(UploadCommitted(l, w, f), done + [Commit(f)])
  {
    hide DataOf, CommitRows;
    forall e ensures DataOf(done + [Commit(f)], e) == DataOf(done, e) {
      DataSnoc(done, Commit(f), e);
    }
  }

  ghost predicate MovesUpload(step: Step) {
    step.RecordChunk? || step.Progress? || step.EndOfStream? || step.PutManifest? || step.SetManifestKey?
    || step.Fail? || step.Abandon?
  }

  lemma UploadSameData(l: Lib, w: World, step: Step)
    requires Enabled(l, w, step) && MovesUpload(step)
    ensures SameData(w, Apply(l, w, step))
  {
    hide FailRows, SetSessionStatus, ManifestOf, InsertChunk, Active;
  }

  lemma OtherSameData(l: Lib, w: World, step: Step)
    requires Enabled(l, w, step) && !MovesUpload(step)
    requires !step.StartUpload? && !step.PutChunk? && !step.Commit?
    ensures SameData(w, Apply(l, w, step))
  {
    hide FinishRows, SetOperationStatus, SetSessionStatus, SetSnapshotStatus, FailOperationsOf, Invalidate;
    hide CountCommittedDescendants, Acyclic, Pending, Targets, ObjectKeys, StaleList, ListedJob;
  }

  lemma DataKeeps(l: Lib, w: World, step: Step, done: seq<Step>)
    requires DataOk(w, done) && Enabled(l, w, step)
    ensures DataOk(Apply(l, w, step), done + [step])
  {
    hide DataOk, SameData;
    if step.StartUpload? {
      DataStart(w, step.start, done);
    } else if step.PutChunk? {
      DataPut(w, step.e, step.data, done);
    } else if step.Commit? {
      DataCommit(l, w, step.e, done);
    } else {
      if MovesUpload(step) { UploadSameData(l, w, step); } else { OtherSameData(l, w, step); }
      DataSame(w, Apply(l, w, step), step, done);
    }
  }

  lemma {:induction false} RunData(l: Lib, w: World, done: seq<Step>, steps: seq<Step>)
    requires DataOk(w, done) && IsRun(l, w, steps)
    ensures DataOk(After(l, w, steps), done + steps)
    decreases |steps|
  {
    hide Enabled, Apply, DataOk;
    if steps == [] {
      assert done + steps == done;
    } else {
      DataKeeps(l, w, steps[0], done);
      assert done + [steps[0]] + steps[1..] == done + steps;
      RunData(l, Apply(l, w, steps[0]), done + [steps[0]], steps[1..]);
    }
  }

  // ---- every committed snapshot can be restored ----

  /** The session that stored a committed snapshot. */
  function SessionFor(w: World, s: Id): Id
    requires s in w.sent
  {
    w.sent[s].0
  }

  /** In every reachable state, restoring any committed snapshot yields exactly the bytes its upload wrote,
      with the size and hash the catalog records. */
  lemma CommittedSnapshotsRestore(l: Lib, steps: seq<Step>, s: Id)
    requires Lawful(l) && IsRun(l, INITIAL, steps)
    requires var w := After(l, INITIAL, steps); s in w.cat.snapshots && w.cat.snapshots[s].status == Committed
    ensures var w := After(l, INITIAL, steps); var row := w.cat.snapshots[s];
      && s in w.sent && row.manifestKey.Some?
      && var stream := Concat(DataOf(steps, SessionFor(w, s)));
         && Restored(l, w.store, row.manifestKey.value) == Some(stream)
         && |stream| == row.storedBytes > 0 && l.sha(stream) == row.streamSha
  {
    hide Enabled, Apply, IsRun, After, DataOf;
    hide CatalogOk, LiveOk, WorkerOk, ModeOk, IssuedOk;
    var w := After(l, INITIAL, steps);
    InitialInv(l);
    RunKeeps(l, INITIAL, steps);
    assert DataOk(INITIAL, []) by { NoData(); }
    RunData(l, INITIAL, [], steps);
    assert [] + steps == steps;
    var u := w.sent[s].1;
    HeldStreamRestores(l, w.store, u.req, u.parts);
    ConcatPrefix(u.parts, 0);
  }

  lemma NoData()
    ensures DataOk(INITIAL, [])
  {
  }

  /** Its session is complete and its operation succeeded. */
  lemma CommittedEndedWell(l: Lib, w: World, s: Id) returns (e: Id, o: Id)
    requires Reachable(l, w) && s in w.cat.snapshots && w.cat.snapshots[s].status == Committed
    ensures e in w.cat.sessions && w.cat.sessions[e].snapshot == Some(s) && w.cat.sessions[e].status == Complete
    ensures o in w.cat.operations && w.cat.operations[o].session == Some(e)
    ensures w.cat.operations[o].kind == UploadOp && w.cat.operations[o].status == Succeeded
  {
    ReachableInv(l, w);
    hide Reachable, CatalogOk, LiveOk, WorkerOk, ModeOk, IssuedOk, HoldsManifest, Holds, RowsWritten;
    e, o := w.sent[s].0, w.sent[s].1.op;
    assert Archived(l, w.cat, w.store, e, w.sent[s].1);
  }

  /** Chunk rows numbered from 0 without holes, tiling [0, size), each naming an object of its size and hash. */
  ghost predicate RowsTile(l: Lib, c: Catalog, store: Objects, s: Id, n: nat, size: nat) {
    && n > 0
    && (forall i: nat :: (s, i) in c.chunks <==> i < n)
    && c.chunks[(s, 0)].start == 0 && c.chunks[(s, n - 1)].end == size
    && (forall i: nat :: 0 < i < n ==> c.chunks[(s, i)].start == c.chunks[(s, i - 1)].end)
    && (forall i: nat :: i < n ==> var row := c.chunks[(s, i)];
          && row.start < row.end && row.end - row.start == row.size
          && row.key in store && |store[row.key]| == row.size && l.sha(store[row.key]) == row.sha)
  }

  lemma ArchivedTiles(l: Lib, c: Catalog, store: Objects, e: Id, u: Upload)
    requires RowsWritten(l, c, u.snap, e, u.req, u.parts) && Holds(store, u.req, u.parts)
    requires u.parts != [] && NonEmptyParts(u.parts)
    ensures RowsTile(l, c, store, u.snap, |u.parts|, |Concat(u.parts)|)
  {
    ChunksTile(l, u.req, u.parts);
    var chunks := ChunksOf(l, u.req, u.parts);
    forall i: nat | i < |u.parts|
      ensures (u.snap, i) in c.chunks && c.chunks[(u.snap, i)] ==
        ChunkRow(e, chunks[i].key, chunks[i].size, chunks[i].start, chunks[i].end, chunks[i].sha)
    {
      assert (u.snap, i) in c.chunks;
    }
  }

  lemma CommittedRowsTile(l: Lib, w: World, s: Id)
    requires Reachable(l, w) && s in w.cat.snapshots && w.cat.snapshots[s].status == Committed
    ensures RowsTile(l, w.cat, w.store, s, w.cat.snapshots[s].chunkCount, w.cat.snapshots[s].storedBytes)
  {
    ReachableInv(l, w);
    hide Reachable, CatalogOk, LiveOk, WorkerOk, ModeOk, IssuedOk, HoldsManifest, Holds, RowsWritten, RowsTile;
    var e, u := w.sent[s].0, w.sent[s].1;
    assert Archived(l, w.cat, w.store, e, u);
    ArchivedTiles(l, w.cat, w.store, e, u);
  }

  /** No crash, at startup or elsewhere, leaves a failed session beside a snapshot that is still uploading,
      nor a complete session beside one that is not stored. */
  lemma SessionsMatchSnapshots(l: Lib, w: World, e: Id)
    requires Reachable(l, w) && e in w.cat.sessions && w.cat.sessions[e].snapshot.Some?
    ensures var s := w.cat.sessions[e].snapshot.value;
      && s in w.cat.snapshots
      && (w.cat.sessions[e].status == SessionFailed ==> w.cat.snapshots[s].status !in {Uploading, Committed})
      && (w.cat.snapshots[s].status == Committed ==> w.cat.sessions[e].status == Complete)
      && (w.cat.sessions[e].status == Complete ==> w.cat.snapshots[s].status in {Committed, Deleting})
  {
    ReachableInv(l, w);
    hide CommittedOk, LiveOk, WorkerOk, ModeOk, IssuedOk, Reachable;
    hide ChunkRowsOk, UniqueOk, OperationRowsOk, RefsOk, LinksOk;
  }

  lemma RowAccepted(l: Lib, w: World, e: Id)
    requires Inv(l, w) && e in w.live && w.live[e].at.Stored?
    ensures RecordedRows(l, w.cat, e, w.live[e]).Some?
  {
    hide CommittedOk, WorkerOk, ModeOk, IssuedOk, HoldsManifest, Holds;
    hide SnapshotRowsOk, SessionRowsOk, OperationRowsOk, StatusOk, RefsOk, LinksOk;
    var u := w.live[e];
    assert RowMatches(w.cat, e, u);
    assert (u.snap, |u.parts|) !in w.cat.chunks;
  }

  /** The schema's constraints never reject the row of a chunk that a running upload has just stored. */
  lemma ChunkRowsAccepted(l: Lib, w: World, e: Id)
    requires Reachable(l, w) && e in w.live && w.live[e].at.Stored?
    ensures RecordedRows(l, w.cat, e, w.live[e]).Some?
  {
    hide Inv, Reachable, RecordedRows;
    ReachableInv(l, w);
    RowAccepted(l, w, e);
  }

  /** A failed or aborted snapshot is referenced by nothing, so a retry is never stopped by it. */
  lemma RetryNeverBlocked(l: Lib, w: World, p: Id)
    requires Reachable(l, w) && p in w.cat.snapshots && w.cat.snapshots[p].status in {Failed, Aborted}
    ensures !Blocked(w.cat, {p}, {})
  {
    ReachableInv(l, w);
    hide CommittedOk, LiveOk, WorkerOk, ModeOk, IssuedOk, Reachable;
    hide SnapshotRowsOk, SessionRowsOk, ChunkRowsOk, UniqueOk, OperationRowsOk, StatusOk, LinksOk;
    assert !Referenceable(w.cat.snapshots, w.cat.sessions, p);
  }
}
