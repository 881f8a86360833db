/** Which rows the steps of one upload can change: its own snapshot, session, operation and chunks. */
module UploadFrames {
  import opened Base
  import opened Manifests
  import opened Catalogs
  import opened Lineage
  import opened Streams
  import opened Machine
  import opened LineageTheorems

  ghost predicate KeptSnapshots(a: map<Id, Snapshot>, b: map<Id, Snapshot>, own: Id) {
    && b.Keys == a.Keys && (forall s :: s in a ==> b[s].parent == a[s].parent && b[s].dataset == a[s].dataset)
    && (forall s :: s in a && s != own ==> b[s] == a[s])
  }

  ghost predicate KeptSessions(a: map<Id, Session>, b: map<Id, Session>, own: Id) {
    && b.Keys == a.Keys && (forall e :: e in a ==> b[e].base == a[e].base && b[e].dataset == a[e].dataset)
    && (forall e :: e in a && e != own ==> b[e] == a[e])
  }

  ghost predicate KeptOperations(a: map<Id, Operation>, b: map<Id, Operation>, own: Id) {
    b.Keys == a.Keys && forall o :: o in a && o != own ==> b[o] == a[o]
  }

  ghost predicate KeptChunks(a: map<(Id, nat), ChunkRow>, b: map<(Id, nat), ChunkRow>, own: Id) {
    forall k: (Id, nat) :: k.0 != own ==> (k in b <==> k in a) && (k in a ==> b[k] == a[k])
  }

  /** Only the rows of one upload may have changed, and not what they refer to. */
  ghost predicate KeptRows(a: Catalog, b: Catalog, t: Start) {
    && b.datasets == a.datasets && KeptSnapshots(a.snapshots, b.snapshots, t.snap)
    && KeptSessions(a.sessions, b.sessions, t.sess) && KeptOperations(a.operations, b.operations, t.op)
    && KeptChunks(a.chunks, b.chunks, t.snap)
  }

  ghost predicate Kept(a: World, b: World, t: Start) {
    && b.issued == a.issued && b.jobs == a.jobs && b.deletion == a.deletion
    && b.live - {t.sess} == a.live - {t.sess} && KeptRows(a.cat, b.cat, t)
  }

  lemma KeptAgain(a: World, b: World, c: World, t: Start)
    requires Kept(a, b, t) && Kept(b, c, t)
    ensures Kept(a, c, t)
  {
    hide KeptRows;
    RowsAgain(a.cat, b.cat, c.cat, t);
  }

  lemma SelfKept(c: Catalog, t: Start)
    ensures KeptRows(c, c, t)
  {
  }

  lemma StatusKeeps(c: Catalog, t: Start, status: SessionStatus)
    ensures KeptRows(c, SetSessionStatus(c, t.sess, status), t)
  {
    SelfKept(c, t);
    hide KeptSnapshots, KeptOperations, KeptChunks;
  }

  lemma KeyKeeps(c: Catalog, t: Start, key: Key)
    ensures KeptRows(c, SetSessionManifestKey(c, t.sess, key), t)
  {
    SelfKept(c, t);
    hide KeptSnapshots, KeptOperations, KeptChunks;
  }

  lemma CompleteKeeps(c: Catalog, t: Start, key: Key)
    ensures KeptRows(c, CompleteSession(c, t.sess, key), t)
  {
    SelfKept(c, t);
    hide KeptSnapshots, KeptOperations, KeptChunks;
  }

  lemma OperationKeeps(c: Catalog, t: Start, status: OperationStatus)
    ensures KeptRows(c, SetOperationStatus(c, t.op, status), t)
  {
    SelfKept(c, t);
    hide KeptSnapshots, KeptSessions, KeptChunks;
  }

  lemma SnapshotKeeps(c: Catalog, t: Start, key: Key, facts: Facts)
    ensures KeptRows(c, CommitSnapshot(c, t.snap, key, facts), t)
    ensures KeptRows(c, SetSnapshotStatus(c, t.snap, Failed), t)
  {
    SelfKept(c, t);
    hide KeptOperations, KeptSessions, KeptChunks;
  }

  lemma RowsAgain(a: Catalog, b: Catalog, c: Catalog, t: Start)
    requires KeptRows(a, b, t) && KeptRows(b, c, t)
    ensures KeptRows(a, c, t)
  {
  }

  lemma InsertKeeps(c: Catalog, t: Start, i: nat, row: ChunkRow)
    ensures InsertChunk(c, t.snap, i, row).Some? ==> KeptRows(c, InsertChunk(c, t.snap, i, row).value, t)
  {
  }

  lemma MoveKept(w: World, t: Start, status: SessionStatus, at: UploadAt)
    requires t.sess in w.live
    ensures Kept(w, SessionMoved(w, t.sess, status, at), t)
  {
    StatusKeeps(w.cat, t, status);
    hide SetSessionStatus;
  }

  lemma PutKept(w: World, t: Start, data: Bytes)
    requires CanPutChunk(w, t.sess, data)
    ensures Kept(w, ChunkPut(w, t.sess, data), t)
  {
  }

  lemma RecordKept(l: Lib, w: World, t: Start)
    requires CanRecordChunk(l, w, t.sess) && w.live[t.sess].snap == t.snap
    ensures Kept(w, ChunkRecorded(l, w, t.sess), t)
  {
    hide ChunkRowOf, InsertChunk;
    var u := w.live[t.sess];
    InsertKeeps(w.cat, t, |u.parts|, ChunkRowOf(l, t.sess, u.req, u.parts + [u.at.data], |u.parts|));
  }

  lemma ManifestKept(l: Lib, w: World, t: Start)
    requires t.sess in w.live
    ensures Kept(w, ManifestPut(l, w, t.sess), t) && Kept(w, ManifestKeySet(w, t.sess), t)
  {
    hide ManifestOf, SetSessionManifestKey;
    KeyKeeps(w.cat, t, ManifestKey(w.live[t.sess].req.ds, w.live[t.sess].req.name));
    SelfKept(w.cat, t);
    hide KeptRows;
  }

  lemma KeptSession(a: World, b: World, t: Start, e: Id)
    requires Kept(a, b, t) && e in a.cat.sessions && e != t.sess
    ensures e in b.cat.sessions && b.cat.sessions[e] == a.cat.sessions[e]
  {
  }

  lemma CommitKeeps(l: Lib, c: Catalog, t: Start, u: Upload)
    requires u.snap == t.snap && u.op == t.op && u.snap in c.snapshots
    ensures KeptRows(c, CommitRows(l, c, t.sess, u), t)
    ensures CommitRows(l, c, t.sess, u).snapshots[t.snap] == CommittedRow(l, c.snapshots[t.snap], u)
  {
    CommitSnapshotsOnly(l, c, t.sess, u);
    assert t.snap in CommitRows(l, c, t.sess, u).snapshots;
    hide KeptRows, CommitSnapshot, CompleteSession, SetOperationStatus, FactsOf;
    var key := ManifestKey(u.req.ds, u.req.name);
    var c1 := CommitSnapshot(c, u.snap, key, FactsOf(l, u));
    SnapshotKeeps(c, t, key, FactsOf(l, u));
    var c2 := CompleteSession(c1, t.sess, key);
    CompleteKeeps(c1, t, key);
    RowsAgain(c, c1, c2, t);
    OperationKeeps(c2, t, Succeeded);
    RowsAgain(c, c2, CommitRows(l, c, t.sess, u), t);
  }

  lemma FailKeeps(c: Catalog, t: Start, u: Upload)
    requires u.snap == t.snap && u.op == t.op
    ensures KeptRows(c, FailRows(c, t.sess, u), t)
  {
    hide KeptRows, SetSnapshotStatus, SetSessionStatus, SetOperationStatus;
    var key := ManifestKey(u.req.ds, u.req.name);
    var c1 := SetSnapshotStatus(c, u.snap, Failed);
    SnapshotKeeps(c, t, key, Facts(0, "", "", "", 0));
    var c2 := SetSessionStatus(c1, t.sess, SessionFailed);
    StatusKeeps(c1, t, SessionFailed);
    RowsAgain(c, c1, c2, t);
    OperationKeeps(c2, t, OpFailed);
    RowsAgain(c, c2, FailRows(c, t.sess, u), t);
  }

  /** A running upload by the identifiers of its rows. */
  function StartOf(e: Id, u: Upload): Start {
    Start(u.d, u.req, None, None, u.snap, e, u.op, 0)
  }

  /** Whatever step a running upload takes, no other row changes. */
  lemma UploadKept(l: Lib, w: World, step: Step)
    requires Enabled(l, w, step) && OfUpload(step) && !step.StartUpload?
    requires w.live[step.e].snap in w.cat.snapshots
    ensures KeptRows(w.cat, Apply(l, w, step).cat, StartOf(step.e, w.live[step.e]))
  {
    hide ManifestOf, WellFormed, ChunkRecorded, CommitRows, FailRows, RecordedRows, ApplyStartup, SetSessionStatus;
    hide SetSessionManifestKey, KeptRows;
    var u := w.live[step.e];
    var t := StartOf(step.e, u);
    SelfKept(w.cat, t);
    match step {
      case RecordChunk(e) => RecordKept(l, w, t); KeptOnly(w, ChunkRecorded(l, w, e), t);
      case Progress(e) => StatusKeeps(w.cat, t, WritingChunk);
      case EndOfStream(e) => StatusKeeps(w.cat, t, CommittingManifest);
      case SetManifestKey(e) => KeyKeeps(w.cat, t, ManifestKey(u.req.ds, u.req.name));
      case Commit(e) => CommitKeeps(l, w.cat, t, u);
      case Fail(e) => FailKeeps(w.cat, t, u);
      case _ =>
    }
  }

  lemma KeptOnly(a: World, b: World, t: Start)
    requires Kept(a, b, t)
    ensures KeptRows(a.cat, b.cat, t)
  {
  }
}
