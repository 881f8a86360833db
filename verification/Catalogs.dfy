/** The SQLite catalog: tables as row maps, SQL statements as functions on them.
    Foreign keys, cascades, SET NULL and UNIQUE follow migrations/000001_initial.sql. */
module Catalogs {
  import opened Base
  import opened Manifests

  /** A row identifier. NewID is modelled by callers choosing one that was never issued before. */
  type Id = nat

  datatype SnapshotStatus = Pending | Uploading | Committed | Failed | Aborted | Deleting

  datatype SessionStatus =
    | SessionPending | SessionUploading | WritingChunk | CommittingManifest | CommittingCatalog
    | Complete | SessionFailed | SessionAborted

  datatype OperationKind = UploadOp | ValidationOp | ReconciliationOp | CleanupOp | BackupOp

  datatype OperationStatus = Queued | Running | Succeeded | OpFailed

  datatype Snapshot = Snapshot(dataset: Id, name: string, parent: Option<Id>, manifestKey: Option<Key>,
                               status: SnapshotStatus, storedBytes: nat, streamSha: string,
                               fromGuid: string, toGuid: string, chunkCount: nat)

  datatype Session = Session(dataset: Id, snapshot: Option<Id>, target: string, base: Option<Id>,
                             status: SessionStatus, chunkSize: int, manifestKey: Option<Key>)

  datatype ChunkRow = ChunkRow(session: Id, key: Key, size: int, start: int, end: int, sha: string)

  datatype Operation = Operation(kind: OperationKind, status: OperationStatus,
                                 dataset: Option<Id>, snapshot: Option<Id>, session: Option<Id>)

  /** Chunk rows are keyed by UNIQUE(snapshot_id, chunk_index). */
  datatype Catalog = Catalog(datasets: map<Id, DatasetName>, snapshots: map<Id, Snapshot>,
                             sessions: map<Id, Session>, chunks: map<(Id, nat), ChunkRow>,
                             operations: map<Id, Operation>)

  const EMPTY := Catalog(map[], map[], map[], map[], map[])

  predicate Active(s: SessionStatus) {
    s in {SessionPending, SessionUploading, WritingChunk, CommittingManifest, CommittingCatalog}
  }

  // ---- UPDATE statements: a WHERE id = ? that matches no row changes nothing ----

  function SetSnapshotStatus(c: Catalog, s: Id, status: SnapshotStatus): Catalog {
    if s in c.snapshots then c.(snapshots := c.snapshots[s := c.snapshots[s].(status := status)]) else c
  }

  function SetSessionStatus(c: Catalog, e: Id, status: SessionStatus): Catalog {
    if e in c.sessions then c.(sessions := c.sessions[e := c.sessions[e].(status := status)]) else c
  }

  function SetSessionManifestKey(c: Catalog, e: Id, key: Key): Catalog {
    if e in c.sessions
    then c.(sessions := c.sessions[e := c.sessions[e].(status := CommittingCatalog, manifestKey := Some(key))])
    else c
  }

  function SetOperationStatus(c: Catalog, o: Id, status: OperationStatus): Catalog {
    if o in c.operations then c.(operations := c.operations[o := c.operations[o].(status := status)]) else c
  }

  /** FailOperationByUploadSession. */
  function FailOperationsOf(c: Catalog, e: Id): Catalog {
    c.(operations := map o | o in c.operations ::
      if c.operations[o].session == Some(e) && c.operations[o].status in {Queued, Running}
      then c.operations[o].(status := OpFailed) else c.operations[o])
  }

  /** InvalidateSnapshotForDeletion and InvalidateDatasetSnapshotsForDeletion. */
  function Invalidate(c: Catalog, gone: set<Id>): Catalog {
    c.(snapshots := map s | s in c.snapshots ::
      if s in gone then c.snapshots[s].(status := Deleting) else c.snapshots[s])
  }

  // ---- INSERT ----

  /** CreateSnapshotChunk: None when a foreign key or a UNIQUE constraint rejects the row. */
  function InsertChunk(c: Catalog, s: Id, i: nat, row: ChunkRow): Option<Catalog> {
    if s in c.snapshots && row.session in c.sessions && (s, i) !in c.chunks
       && (forall k :: k in c.chunks ==> c.chunks[k].key != row.key)
    then Some(c.(chunks := c.chunks[(s, i) := row]))
    else None
  }

  // ---- DELETE ----

  function Unlink(ref: Option<Id>, gone: set<Id>): Option<Id> {
    if ref.Some? && ref.value in gone then None else ref
  }

  /** Removes rows with every cascade and SET NULL the schema declares. */
  function Purge(c: Catalog, datasets: set<Id>, snapshots: set<Id>, sessions: set<Id>): Catalog {
    Catalog(
      c.datasets - datasets,
      c.snapshots - snapshots,
      map e | e in c.sessions && e !in sessions ::
        c.sessions[e].(snapshot := Unlink(c.sessions[e].snapshot, snapshots)),
      map k | k in c.chunks && k.0 !in snapshots && c.chunks[k].session !in sessions :: c.chunks[k],
      map o | o in c.operations ::
        c.operations[o].(dataset := Unlink(c.operations[o].dataset, datasets),
                         snapshot := Unlink(c.operations[o].snapshot, snapshots),
                         session := Unlink(c.operations[o].session, sessions)))
  }

  /** parent_snapshot_id and base_snapshot_id have no ON DELETE action: a surviving reference blocks the DELETE. */
  predicate Blocked(c: Catalog, snapshots: set<Id>, sessions: set<Id>) {
    || (exists t :: t in c.snapshots && t !in snapshots
                    && c.snapshots[t].parent.Some? && c.snapshots[t].parent.value in snapshots)
    || (exists e :: e in c.sessions && e !in sessions
                    && c.sessions[e].base.Some? && c.sessions[e].base.value in snapshots)
  }

  function DeleteSnapshot(c: Catalog, s: Id): Option<Catalog> {
    if Blocked(c, {s}, {}) then None else Some(Purge(c, {}, {s}, {}))
  }

  function DeleteSessions(c: Catalog, sessions: set<Id>): Catalog {
    Purge(c, {}, {}, sessions)
  }

  function SessionsOf(c: Catalog, s: Id): set<Id> {
    set e | e in c.sessions && c.sessions[e].snapshot == Some(s)
  }

  function DatasetSnapshots(c: Catalog, d: Id): set<Id> {
    set s | s in c.snapshots && c.snapshots[s].dataset == d
  }

  function DatasetSessions(c: Catalog, d: Id): set<Id> {
    set e | e in c.sessions && c.sessions[e].dataset == d
  }

  function DeleteDataset(c: Catalog, d: Id): Option<Catalog> {
    var s, e := DatasetSnapshots(c, d), DatasetSessions(c, d);
    if Blocked(c, s, e) then None else Some(Purge(c, {d}, s, e))
  }

  /** The transaction closing a snapshot deletion: sessions of the snapshot, then its row. */
  function RemoveSnapshot(c: Catalog, s: Id): Option<Catalog> {
    DeleteSnapshot(DeleteSessions(c, SessionsOf(c, s)), s)
  }

  // ---- SELECT ----

  function ManifestKeys(c: Catalog, snapshots: set<Id>): set<Key> {
    set s | s in snapshots && s in c.snapshots && c.snapshots[s].manifestKey.Some? :: c.snapshots[s].manifestKey.value
  }

  /** ListSnapshotObjectKeys / ListDatasetObjectKeys: the UNION of chunk keys and manifest keys. */
  function ObjectKeys(c: Catalog, snapshots: set<Id>): set<Key> {
    (set k | k in c.chunks && k.0 in snapshots :: c.chunks[k].key) + ManifestKeys(c, snapshots)
  }
}
