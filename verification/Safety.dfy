/** Each step keeps the invariant, so it holds in every reachable state. */
module Safety {
  import opened Base
  import opened Manifests
  import opened Catalogs
  import opened Lineage
  import opened Streams
  import opened Machine
  import opened Invariant

  // ---- carrying the two per-upload invariants across a step ----

  lemma CommittedFrame(l: Lib, w: World, w': World, added: set<Id>)
    requires CommittedOk(l, w)
    requires forall s :: s in w'.cat.snapshots && w'.cat.snapshots[s].status == Committed && s !in added ==>
      && s in w.cat.snapshots && w.cat.snapshots[s].status == Committed
      && s in w.sent && s in w'.sent && w'.sent[s] == w.sent[s]
      && SameUploadRows(w.cat, w'.cat, w.sent[s].0, w.sent[s].1)
      && SameObjects(w.store, w'.store, w.sent[s].1.req.ds, w.sent[s].1.req.name)
    requires forall s :: s in added ==>
      s in w'.sent && w'.sent[s].1.snap == s && Archived(l, w'.cat, w'.store, w'.sent[s].0, w'.sent[s].1)
    ensures CommittedOk(l, w')
  {
    forall s | s in w'.cat.snapshots && w'.cat.snapshots[s].status == Committed && s !in added
      ensures Archived(l, w'.cat, w'.store, w'.sent[s].0, w'.sent[s].1)
    {
      ArchivedFrame(l, w.cat, w.store, w'.cat, w'.store, w.sent[s].0, w.sent[s].1);
    }
  }

  ghost predicate ParentStays(a: Catalog, b: Catalog, s: Id)
    requires s in a.snapshots
  {
    a.snapshots[s].parent.Some? ==>
      a.snapshots[s].parent.value in b.snapshots && b.snapshots[a.snapshots[s].parent.value].status == Committed
  }

  lemma LivesFrame(l: Lib, w: World, w': World, moved: set<Id>)
    requires LiveOk(l, w)
    requires forall e :: e in w'.live && e !in moved ==>
      && e in w.live && w'.live[e] == w.live[e]
      && SameUploadRows(w.cat, w'.cat, e, w.live[e])
      && SameObjects(w.store, w'.store, w.live[e].req.ds, w.live[e].req.name)
      && ParentStays(w.cat, w'.cat, w.live[e].snap)
    requires forall e :: e in w'.live && e in moved ==> LiveUpload(l, w'.cat, w'.store, e, w'.live[e])
    ensures LiveOk(l, w')
  {
    forall e | e in w'.live && e !in moved ensures LiveUpload(l, w'.cat, w'.store, e, w'.live[e]) {
      LiveFrame(l, w.cat, w.store, w'.cat, w'.store, e, w.live[e]);
    }
  }

  lemma ApartFromLive(l: Lib, w: World, e: Id, s: Id)
    requires CatalogOk(w.cat) && CommittedOk(l, w) && LiveOk(l, w)
    requires e in w.live && s in w.cat.snapshots && w.cat.snapshots[s].status == Committed
    ensures s in w.sent && s != w.live[e].snap && e != w.sent[s].0 && w.sent[s].1.op in w.cat.operations
    ensures w.sent[s].1.req.ds != w.live[e].req.ds || w.sent[s].1.req.name != w.live[e].req.name
  {
    NamesApart(w.cat, s, w.live[e].snap);
  }

  lemma LivesApart(l: Lib, w: World, e: Id, f: Id)
    requires CatalogOk(w.cat) && LiveOk(l, w) && e in w.live && f in w.live && e != f
    ensures w.live[f].snap != w.live[e].snap
    ensures w.live[f].req.ds != w.live[e].req.ds || w.live[f].req.name != w.live[e].req.name
  {
    NamesApart(w.cat, w.live[f].snap, w.live[e].snap);
  }

  // ---- steps that only write objects of a running upload ----

  ghost predicate Put(w: World, w': World, e: Id, key: Key, body: Bytes) {
    && e in w.live && e in w'.live
    && key.ds == w.live[e].req.ds && key.snapshot == w.live[e].req.name
    && w'.cat == w.cat && w'.sent == w.sent && w'.store == w.store[key := body]
    && w'.live == w.live[e := w'.live[e]] && w'.live[e].d == w.live[e].d
  }

  lemma PutCommitted(l: Lib, w: World, w': World, e: Id, key: Key, body: Bytes)
    requires CatalogOk(w.cat) && CommittedOk(l, w) && LiveOk(l, w) && Put(w, w', e, key, body)
    ensures CommittedOk(l, w')
  {
    hide CatalogOk, LiveOk, HoldsManifest, RowsWritten, Holds;
    forall s | s in w.cat.snapshots && w.cat.snapshots[s].status == Committed
      ensures SameObjects(w.store, w'.store, w.sent[s].1.req.ds, w.sent[s].1.req.name)
    {
      ApartFromLive(l, w, e, s);
    }
    CommittedFrame(l, w, w', {});
  }

  lemma PutLive(l: Lib, w: World, w': World, e: Id, key: Key, body: Bytes)
    requires CatalogOk(w.cat) && LiveOk(l, w) && Put(w, w', e, key, body)
    requires LiveUpload(l, w.cat, w'.store, e, w'.live[e])
    ensures LiveOk(l, w')
  {
    hide CatalogOk, HoldsManifest, RowsWritten, Holds, AtOk;
    forall f | f in w.live && f != e
      ensures SameObjects(w.store, w'.store, w.live[f].req.ds, w.live[f].req.name)
    {
      LivesApart(l, w, e, f);
    }
    LivesFrame(l, w, w', {e});
  }

  lemma PutWorker(w: World, w': World, e: Id)
    requires WorkerOk(w) && e in w.live && e in w'.live
    requires w'.cat == w.cat && w'.jobs == w.jobs && w'.deletion == w.deletion && w'.issued == w.issued
    requires w'.live == w.live[e := w'.live[e]] && w'.live[e].d == w.live[e].d
    ensures WorkerOk(w')
  {
    if w.deletion.Some? {
      assert forall f :: f in w'.live ==> f in w.live && w'.live[f].d == w.live[f].d;
    }
  }

  lemma ChunkPutLive(l: Lib, w: World, e: Id, data: Bytes)
    requires LiveOk(l, w) && CanPutChunk(w, e, data)
    ensures var w' := ChunkPut(w, e, data); LiveUpload(l, w.cat, w'.store, e, w'.live[e])
  {
  }

  lemma PutChunkKeeps(l: Lib, w: World, e: Id, data: Bytes)
    requires Inv(l, w) && w.mode == Serving && CanPutChunk(w, e, data)
    ensures Inv(l, ChunkPut(w, e, data))
  {
    hide CatalogOk, CommittedOk, LiveOk, WorkerOk, LiveUpload;
    var w' := ChunkPut(w, e, data);
    var key := ChunkKey(w.live[e].req.ds, w.live[e].req.name, |w.live[e].parts|);
    PutCommitted(l, w, w', e, key, data);
    ChunkPutLive(l, w, e, data);
    PutLive(l, w, w', e, key, data);
    PutWorker(w, w', e);
  }

  lemma ManifestPutLive(l: Lib, w: World, e: Id)
    requires LiveOk(l, w) && CanPutManifest(l, w, e)
    ensures var w' := ManifestPut(l, w, e); LiveUpload(l, w.cat, w'.store, e, w'.live[e])
  {
  }

  lemma PutManifestKeeps(l: Lib, w: World, e: Id)
    requires Inv(l, w) && w.mode == Serving && CanPutManifest(l, w, e)
    ensures Inv(l, ManifestPut(l, w, e))
  {
    hide CatalogOk, CommittedOk, LiveOk, WorkerOk, LiveUpload;
    var w' := ManifestPut(l, w, e);
    var u := w.live[e];
    var key, body := ManifestKey(u.req.ds, u.req.name), l.marshal(ManifestOf(l, u.req, u.parts));
    PutCommitted(l, w, w', e, key, body);
    ManifestPutLive(l, w, e);
    PutLive(l, w, w', e, key, body);
    PutWorker(w, w', e);
  }

  // ---- steps that move the session of a running upload ----

  /** One session row changes, between two active statuses, keeping what it refers to. */
  ghost predicate Touch(c: Catalog, c': Catalog, e: Id) {
    && e in c.sessions && e in c'.sessions
    && c' == c.(sessions := c.sessions[e := c'.sessions[e]])
    && c'.sessions[e].dataset == c.sessions[e].dataset && c'.sessions[e].snapshot == c.sessions[e].snapshot
    && c'.sessions[e].base == c.sessions[e].base
    && Active(c.sessions[e].status) && Active(c'.sessions[e].status)
  }

  lemma TouchCatalog(c: Catalog, c': Catalog, e: Id)
    requires CatalogOk(c) && Touch(c, c', e)
    ensures CatalogOk(c')
  {
    hide SnapshotRowsOk, SessionRowsOk, ChunkRowsOk, UniqueOk, OperationRowsOk, StatusOk, RefsOk, LinksOk;
    TouchSessions(c, c', e);
    TouchRefs(c, c', e);
    assert c'.sessions.Keys == c.sessions.Keys;
  }

  lemma TouchSessions(c: Catalog, c': Catalog, e: Id)
    requires Touch(c, c', e)
    requires SessionRowsOk(c.datasets, c.snapshots, c.sessions) && UniqueOk(c.datasets, c.snapshots, c.sessions)
    requires ChunkRowsOk(c.datasets, c.snapshots, c.sessions, c.chunks) && StatusOk(c.snapshots, c.sessions)
    ensures SessionRowsOk(c'.datasets, c'.snapshots, c'.sessions) && UniqueOk(c'.datasets, c'.snapshots, c'.sessions)
    ensures ChunkRowsOk(c'.datasets, c'.snapshots, c'.sessions, c'.chunks) && StatusOk(c'.snapshots, c'.sessions)
  {
  }

  lemma TouchRefs(c: Catalog, c': Catalog, e: Id)
    requires RefsOk(c.snapshots, c.sessions) && Touch(c, c', e)
    ensures RefsOk(c'.snapshots, c'.sessions)
  {
    forall p | Referenceable(c.snapshots, c.sessions, p) ensures Referenceable(c'.snapshots, c'.sessions, p) {
    }
  }

  lemma TouchCommitted(l: Lib, w: World, w': World, e: Id)
    requires CatalogOk(w.cat) && CommittedOk(l, w) && LiveOk(l, w) && e in w.live && Touch(w.cat, w'.cat, e)
    requires w'.store == w.store && w'.sent == w.sent
    ensures CommittedOk(l, w')
  {
    hide CatalogOk, LiveOk, HoldsManifest, RowsWritten, Holds;
    forall s | s in w.cat.snapshots && w.cat.snapshots[s].status == Committed
      ensures w.sent[s].0 != e
    {
      ApartFromLive(l, w, e, s);
    }
    CommittedFrame(l, w, w', {});
  }

  lemma TouchLive(l: Lib, w: World, w': World, e: Id)
    requires LiveOk(l, w) && e in w.live && e in w'.live && Touch(w.cat, w'.cat, e)
    requires w'.store == w.store && w'.live == w.live[e := w'.live[e]]
    requires LiveUpload(l, w'.cat, w'.store, e, w'.live[e])
    ensures LiveOk(l, w')
  {
    hide HoldsManifest, RowsWritten, Holds, AtOk;
    LivesFrame(l, w, w', {e});
  }

  lemma TouchWorker(w: World, w': World, e: Id)
    requires WorkerOk(w) && e in w.live && e in w'.live && Touch(w.cat, w'.cat, e)
    requires w'.jobs == w.jobs && w'.deletion == w.deletion && w'.issued == w.issued
    requires w'.live == w.live[e := w'.live[e]] && w'.live[e].d == w.live[e].d
    ensures WorkerOk(w')
  {
    if w.deletion.Some? {
      assert forall f :: f in w'.live ==> f in w.live && w'.live[f].d == w.live[f].d;
    }
  }

  lemma SessionMovedLive(l: Lib, w: World, e: Id, status: SessionStatus, at: UploadAt)
    requires LiveOk(l, w) && e in w.live && Active(status)
    requires at == Reading || (at == Manifesting && w.live[e].parts != [])
    ensures var w' := SessionMoved(w, e, status, at);
      Touch(w.cat, w'.cat, e) && LiveUpload(l, w'.cat, w'.store, e, w'.live[e])
  {
  }

  lemma SessionMovedKeeps(l: Lib, w: World, e: Id, status: SessionStatus, at: UploadAt)
    requires Inv(l, w) && w.mode == Serving && e in w.live && Active(status)
    requires at == Reading || (at == Manifesting && w.live[e].parts != [])
    ensures Inv(l, SessionMoved(w, e, status, at))
  {
    hide CatalogOk, CommittedOk, LiveOk, WorkerOk, LiveUpload;
    var w' := SessionMoved(w, e, status, at);
    SessionMovedLive(l, w, e, status, at);
    TouchCatalog(w.cat, w'.cat, e);
    TouchCommitted(l, w, w', e);
    TouchLive(l, w, w', e);
    TouchWorker(w, w', e);
  }

  lemma ManifestKeySetLive(l: Lib, w: World, e: Id)
    requires LiveOk(l, w) && e in w.live && w.live[e].at.ManifestStored?
    ensures var w' := ManifestKeySet(w, e);
      Touch(w.cat, w'.cat, e) && LiveUpload(l, w'.cat, w'.store, e, w'.live[e])
  {
  }

  lemma ManifestKeySetKeeps(l: Lib, w: World, e: Id)
    requires Inv(l, w) && w.mode == Serving && e in w.live && w.live[e].at.ManifestStored?
    ensures Inv(l, ManifestKeySet(w, e))
  {
    hide CatalogOk, CommittedOk, LiveOk, WorkerOk, LiveUpload;
    var w' := ManifestKeySet(w, e);
    ManifestKeySetLive(l, w, e);
    TouchCatalog(w.cat, w'.cat, e);
    TouchCommitted(l, w, w', e);
    TouchLive(l, w, w', e);
    TouchWorker(w, w', e);
  }

  // ---- recording a chunk ----

  lemma RecordCatalog(l: Lib, w: World, e: Id)
    requires CatalogOk(w.cat) && LiveOk(l, w) && CanRecordChunk(l, w, e)
    ensures CatalogOk(ChunkRecorded(l, w, e).cat)
  {
    hide SnapshotRowsOk, SessionRowsOk, UniqueOk, OperationRowsOk, StatusOk, RefsOk, LinksOk;
    hide HoldsManifest, RowsWritten, Holds, AtOk;
    var u := w.live[e];
    assert RowMatches(w.cat, e, u);
  }

  /** Recording a chunk adds one row of the upload's own snapshot. */
  lemma RecordedFrame(l: Lib, w: World, e: Id)
    requires CanRecordChunk(l, w, e)
    ensures var w' := ChunkRecorded(l, w, e);
      && w' == w.(cat := w.cat.(chunks := w'.cat.chunks), live := w'.live) && w'.live.Keys == w.live.Keys
      && (forall f :: f in w.live && f != e ==> w'.live[f] == w.live[f])
      && (forall s :: s != w.live[e].snap ==> SameChunkRows(w.cat, w'.cat, s))
  {
    hide ChunkRowOf;
  }

  lemma RecordCommitted(l: Lib, w: World, e: Id)
    requires CatalogOk(w.cat) && CommittedOk(l, w) && LiveOk(l, w) && CanRecordChunk(l, w, e)
    ensures CommittedOk(l, ChunkRecorded(l, w, e))
  {
    hide CatalogOk, LiveOk, HoldsManifest, RowsWritten, Holds, ChunkRecorded, SameChunkRows, CanRecordChunk;
    var w' := ChunkRecorded(l, w, e);
    assert e in w.live by { Recording(l, w, e); }
    RecordedFrame(l, w, e);
    forall s | s in w.cat.snapshots && w.cat.snapshots[s].status == Committed
      ensures SameChunkRows(w.cat, w'.cat, s)
    {
      ApartFromLive(l, w, e, s);
    }
    CommittedFrame(l, w, w', {});
  }

  lemma Recording(l: Lib, w: World, e: Id)
    requires CanRecordChunk(l, w, e)
    ensures e in w.live
  {
  }

  lemma RecordOwn(l: Lib, w: World, e: Id)
    requires LiveOk(l, w) && CanRecordChunk(l, w, e)
    ensures var w' := ChunkRecorded(l, w, e); LiveUpload(l, w'.cat, w'.store, e, w'.live[e])
  {
    var u := w.live[e];
    var w' := ChunkRecorded(l, w, e);
    var parts := u.parts + [u.at.data];
    forall i: nat
      ensures (u.snap, i) in w'.cat.chunks <==> i < |parts|
      ensures (u.snap, i) in w'.cat.chunks ==> w'.cat.chunks[(u.snap, i)] == ChunkRowOf(l, e, u.req, parts, i)
    {
      if i < |u.parts| {
        assert parts[..i] == u.parts[..i];
      }
    }
  }

  lemma RecordLive(l: Lib, w: World, e: Id)
    requires CatalogOk(w.cat) && LiveOk(l, w) && CanRecordChunk(l, w, e)
    ensures LiveOk(l, ChunkRecorded(l, w, e))
  {
    hide CatalogOk, HoldsManifest, RowsWritten, Holds, AtOk, ChunkRecorded, SameChunkRows, CanRecordChunk;
    var w' := ChunkRecorded(l, w, e);
    assert e in w.live by { Recording(l, w, e); }
    RecordOwn(l, w, e);
    RecordedFrame(l, w, e);
    forall f | f in w.live && f != e
      ensures SameChunkRows(w.cat, w'.cat, w.live[f].snap)
    {
      LivesApart(l, w, e, f);
    }
    LivesFrame(l, w, w', {e});
  }

  lemma RecordWorker(l: Lib, w: World, e: Id)
    requires WorkerOk(w) && CanRecordChunk(l, w, e)
    ensures WorkerOk(ChunkRecorded(l, w, e))
  {
    var w' := ChunkRecorded(l, w, e);
    if w.deletion.Some? {
      assert forall f :: f in w'.live ==> f in w.live && w'.live[f].d == w.live[f].d;
    }
  }

  lemma RecordChunkKeeps(l: Lib, w: World, e: Id)
    requires Inv(l, w) && w.mode == Serving && CanRecordChunk(l, w, e)
    ensures Inv(l, ChunkRecorded(l, w, e))
  {
    hide CatalogOk, CommittedOk, LiveOk, WorkerOk;
    RecordCatalog(l, w, e);
    RecordCommitted(l, w, e);
    RecordLive(l, w, e);
    RecordWorker(l, w, e);
  }
}
