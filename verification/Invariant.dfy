/** What every step keeps, stated on the catalog, the store and the running processes together. */
module Invariant {
  import opened Base
  import opened Manifests
  import opened Catalogs
  import opened Lineage
  import opened Streams
  import opened Machine

  // ---- the catalog alone ----

  ghost predicate InDataset(snapshots: map<Id, Snapshot>, s: Id, d: Id) {
    s in snapshots && snapshots[s].dataset == d
  }

  ghost predicate SnapshotRowsOk(datasets: map<Id, DatasetName>, snapshots: map<Id, Snapshot>) {
    forall s :: s in snapshots ==>
      && snapshots[s].dataset in datasets
      && (snapshots[s].parent.Some? ==> InDataset(snapshots, snapshots[s].parent.value, snapshots[s].dataset))
      && (snapshots[s].manifestKey.Some? ==>
            snapshots[s].manifestKey.value == ManifestKey(datasets[snapshots[s].dataset], snapshots[s].name))
  }

  ghost predicate SessionRowsOk(datasets: map<Id, DatasetName>, snapshots: map<Id, Snapshot>,
                                sessions: map<Id, Session>) {
    forall e :: e in sessions ==>
      && sessions[e].dataset in datasets
      && (sessions[e].snapshot.Some? ==> InDataset(snapshots, sessions[e].snapshot.value, sessions[e].dataset))
      && (sessions[e].base.Some? ==> InDataset(snapshots, sessions[e].base.value, sessions[e].dataset))
  }

  ghost predicate ChunkRowsOk(datasets: map<Id, DatasetName>, snapshots: map<Id, Snapshot>,
                              sessions: map<Id, Session>, chunks: map<(Id, nat), ChunkRow>) {
    forall k :: k in chunks ==>
      && k.0 in snapshots && snapshots[k.0].dataset in datasets
      && chunks[k].session in sessions && sessions[chunks[k].session].snapshot == Some(k.0)
      && chunks[k].key == ChunkKey(datasets[snapshots[k.0].dataset], snapshots[k.0].name, k.1)
  }

  ghost predicate OperationRowsOk(datasets: set<Id>, snapshots: map<Id, Snapshot>, sessions: set<Id>,
                                  operations: map<Id, Operation>) {
    forall o :: o in operations ==>
      && (operations[o].dataset.Some? ==> operations[o].dataset.value in datasets)
      && (operations[o].snapshot.Some? ==> operations[o].snapshot.value in snapshots)
      && (operations[o].session.Some? ==> operations[o].session.value in sessions)
      && (operations[o].kind == CleanupOp && operations[o].snapshot.Some? ==>
            operations[o].dataset == Some(snapshots[operations[o].snapshot.value].dataset))
      && (operations[o].kind == CleanupOp ==> operations[o].session.None?)
  }

  ghost predicate UniqueOk(datasets: map<Id, DatasetName>, snapshots: map<Id, Snapshot>,
                           sessions: map<Id, Session>) {
    && (forall a, b :: a in datasets && b in datasets && datasets[a] == datasets[b] ==> a == b)
    && (forall a, b ::
          (a in snapshots && b in snapshots && snapshots[a].dataset == snapshots[b].dataset
           && snapshots[a].name == snapshots[b].name) ==> a == b)
    && (forall a, b ::
          (a in sessions && b in sessions && sessions[a].snapshot.Some?
           && sessions[a].snapshot == sessions[b].snapshot) ==> a == b)
  }

  /** A committed snapshot's session is complete; an uploading one's is still active, never failed. */
  ghost predicate StatusOk(snapshots: map<Id, Snapshot>, sessions: map<Id, Session>) {
    forall e :: e in sessions && sessions[e].snapshot.Some? && sessions[e].snapshot.value in snapshots ==>
      var st := snapshots[sessions[e].snapshot.value].status;
      && (st == Committed ==> sessions[e].status == Complete)
      && (st == Uploading ==> Active(sessions[e].status))
      && (sessions[e].status == Complete ==> st in {Committed, Deleting})
  }

  /** What a parent or base reference may point to: something that was committed and whose session ended well. */
  ghost predicate Referenceable(snapshots: map<Id, Snapshot>, sessions: map<Id, Session>, p: Id) {
    && p in snapshots && snapshots[p].status in {Committed, Deleting}
    && (forall e :: e in sessions && sessions[e].snapshot == Some(p) ==> sessions[e].status == Complete)
  }

  ghost predicate RefsOk(snapshots: map<Id, Snapshot>, sessions: map<Id, Session>) {
    && (forall s :: s in snapshots && snapshots[s].parent.Some? ==>
          Referenceable(snapshots, sessions, snapshots[s].parent.value))
    && (forall e :: e in sessions && sessions[e].base.Some? ==>
          Referenceable(snapshots, sessions, sessions[e].base.value))
  }

  ghost predicate LinksOk(snapshots: map<Id, Snapshot>) {
    Acyclic(ParentsOf(snapshots)) && Closed(ParentsOf(snapshots)) && ParentsCommitted(snapshots)
  }

  ghost predicate CatalogOk(c: Catalog) {
    && SnapshotRowsOk(c.datasets, c.snapshots)
    && SessionRowsOk(c.datasets, c.snapshots, c.sessions)
    && ChunkRowsOk(c.datasets, c.snapshots, c.sessions, c.chunks)
    && OperationRowsOk(c.datasets.Keys, c.snapshots, c.sessions.Keys, c.operations)
    && UniqueOk(c.datasets, c.snapshots, c.sessions)
    && StatusOk(c.snapshots, c.sessions)
    && RefsOk(c.snapshots, c.sessions)
    && LinksOk(c.snapshots)
  }

  // ---- the catalog against the store ----

  ghost predicate BaseNamed(c: Catalog, s: Snapshot, base: string) {
    match s.parent
    case None => base == ""
    case Some(p) => p in c.snapshots && c.snapshots[p].name == base && base != ""
  }

  ghost predicate RowsWritten(l: Lib, c: Catalog, s: Id, e: Id, r: Request, parts: seq<Bytes>) {
    forall i: nat ::
      && ((s, i) in c.chunks <==> i < |parts|)
      && ((s, i) in c.chunks ==> c.chunks[(s, i)] == ChunkRowOf(l, e, r, parts, i))
  }

  ghost predicate RowMatches(c: Catalog, e: Id, u: Upload) {
    && u.snap in c.snapshots && u.d in c.datasets && c.datasets[u.d] == u.req.ds
    && c.snapshots[u.snap].dataset == u.d && c.snapshots[u.snap].name == u.req.name
    && BaseNamed(c, c.snapshots[u.snap], u.req.base)
    && e in c.sessions && c.sessions[e].snapshot == Some(u.snap)
    && u.op in c.operations && c.operations[u.op].kind == UploadOp && c.operations[u.op].session == Some(e)
  }

  /** Everything the client sent for a committed snapshot is recorded and still in the store. */
  ghost predicate Archived(l: Lib, c: Catalog, store: Objects, e: Id, u: Upload) {
    && RowMatches(c, e, u)
    && c.snapshots[u.snap] == CommittedRow(l, c.snapshots[u.snap], u)
    && c.sessions[e].status == Complete && c.operations[u.op].status == Succeeded
    && u.parts != [] && NonEmptyParts(u.parts)
    && RowsWritten(l, c, u.snap, e, u.req, u.parts)
    && Holds(store, u.req, u.parts) && HoldsManifest(l, store, u.req, u.parts)
  }

  ghost predicate CommittedOk(l: Lib, w: World) {
    forall s :: s in w.cat.snapshots && w.cat.snapshots[s].status == Committed ==>
      s in w.sent && w.sent[s].1.snap == s && Archived(l, w.cat, w.store, w.sent[s].0, w.sent[s].1)
  }

  ghost predicate AtOk(l: Lib, store: Objects, u: Upload) {
    match u.at
    case Reading => true
    case Stored(data) =>
      && data != [] && ChunkKey(u.req.ds, u.req.name, |u.parts|) in store
      && store[ChunkKey(u.req.ds, u.req.name, |u.parts|)] == data
    case Recorded => true
    case Manifesting => u.parts != []
    case ManifestStored => u.parts != [] && HoldsManifest(l, store, u.req, u.parts)
    case Ready => u.parts != [] && HoldsManifest(l, store, u.req, u.parts)
  }

  ghost predicate LiveUpload(l: Lib, c: Catalog, store: Objects, e: Id, u: Upload) {
    && RowMatches(c, e, u)
    && c.snapshots[u.snap].status == Uploading && Active(c.sessions[e].status)
    && (c.snapshots[u.snap].parent.Some? ==>
          c.snapshots[u.snap].parent.value in c.snapshots
          && c.snapshots[c.snapshots[u.snap].parent.value].status == Committed)
    && NonEmptyParts(u.parts)
    && RowsWritten(l, c, u.snap, e, u.req, u.parts)
    && Holds(store, u.req, u.parts) && AtOk(l, store, u)
  }

  ghost predicate LiveOk(l: Lib, w: World) {
    forall e :: e in w.live ==> LiveUpload(l, w.cat, w.store, e, w.live[e])
  }

  // ---- identifiers, the worker and startup ----

  ghost predicate IssuedOk(w: World) {
    && w.cat.datasets.Keys <= w.issued && w.cat.snapshots.Keys <= w.issued
    && w.cat.sessions.Keys <= w.issued && w.cat.operations.Keys <= w.issued
  }

  ghost predicate JobOk(w: World, j: Job) {
    && j.op in w.cat.operations && w.cat.operations[j.op].kind == CleanupOp
    && (j.dataset.Some? ==> j.dataset.value in w.issued)
    && (j.snapshot.Some? ==>
          && j.dataset.Some? && j.snapshot.value in w.issued
          && (j.snapshot.value in w.cat.snapshots ==> w.cat.snapshots[j.snapshot.value].dataset == j.dataset.value))
  }

  ghost predicate ChildlessOk(c: Catalog, j: Job) {
    j.snapshot.Some? ==>
      forall t :: t in c.snapshots && c.snapshots[t].parent == j.snapshot ==> c.snapshots[t].status != Committed
  }

  /** Every key the job is going to remove belongs to a snapshot the job deletes. */
  ghost predicate KeysOfJob(c: Catalog, j: Job, keys: seq<Key>) {
    forall k :: k in keys ==>
      && j.dataset.Some? && j.dataset.value in c.datasets && k.ds == c.datasets[j.dataset.value]
      && (j.snapshot.Some? ==> j.snapshot.value in c.snapshots && k.snapshot == c.snapshots[j.snapshot.value].name)
  }

  ghost predicate DeletionOk(w: World, x: Deletion) {
    && w.jobs != [] && x.job == w.jobs[0] && x.job.dataset.Some?
    && !UploadingInto(w, x.job.dataset)
    && (match x.at
        case Begun => true
        case Counted => ChildlessOk(w.cat, x.job)
        case Listed(keys) => ChildlessOk(w.cat, x.job) && KeysOfJob(w.cat, x.job, keys)
        case Removing(keys, next) =>
          && KeysOfJob(w.cat, x.job, keys)
          && (forall t :: t in Targets(w.cat, x.job) && t in w.cat.snapshots ==> w.cat.snapshots[t].status == Deleting))
  }

  ghost predicate WorkerOk(w: World) {
    && (forall i :: 0 <= i < |w.jobs| ==> JobOk(w, w.jobs[i]))
    && (w.deletion.Some? ==> DeletionOk(w, w.deletion.value))
  }

  ghost predicate Idle(w: World) {
    w.live == map[] && w.jobs == [] && w.deletion.None?
  }

  ghost predicate ModeOk(w: World) {
    match w.mode
    case Serving => true
    case Starting => Idle(w)
    case Reconciling(todo, at) =>
      && Idle(w)
      && (match at
          case AtSnapshot => StaleList(w.cat, todo)
          case AtSession =>
            && StaleList(w.cat, todo) && todo != []
            && (w.cat.sessions[todo[0]].snapshot.Some? ==>
                  w.cat.sessions[todo[0]].snapshot.value in w.cat.snapshots
                  && w.cat.snapshots[w.cat.sessions[todo[0]].snapshot.value].status == Failed)
          case AtOperation =>
            && todo != [] && StaleList(w.cat, todo[1..])
            && todo[0] in w.cat.sessions && w.cat.sessions[todo[0]].status == SessionFailed)
  }

  ghost predicate Inv(l: Lib, w: World) {
    && CatalogOk(w.cat) && CommittedOk(l, w) && LiveOk(l, w)
    && IssuedOk(w) && WorkerOk(w) && ModeOk(w)
  }

  // ---- frames ----

  ghost predicate SameChunkRows(a: Catalog, b: Catalog, s: Id) {
    forall i: nat :: ((s, i) in a.chunks <==> (s, i) in b.chunks)
                     && ((s, i) in a.chunks ==> a.chunks[(s, i)] == b.chunks[(s, i)])
  }

  /** The rows an archived or running upload depends on are the same in both catalogs. */
  ghost predicate SameUploadRows(a: Catalog, b: Catalog, e: Id, u: Upload) {
    && u.d in b.datasets && u.d in a.datasets && b.datasets[u.d] == a.datasets[u.d]
    && u.snap in a.snapshots && u.snap in b.snapshots && b.snapshots[u.snap] == a.snapshots[u.snap]
    && e in a.sessions && e in b.sessions && b.sessions[e] == a.sessions[e]
    && u.op in a.operations && u.op in b.operations
    && b.operations[u.op].kind == a.operations[u.op].kind
    && b.operations[u.op].status == a.operations[u.op].status
    && b.operations[u.op].session == a.operations[u.op].session
    && SameChunkRows(a, b, u.snap)
    && (a.snapshots[u.snap].parent.Some? ==>
          var p := a.snapshots[u.snap].parent.value;
          p in a.snapshots ==> p in b.snapshots && b.snapshots[p].name == a.snapshots[p].name)
  }

  lemma HoldsFrame(l: Lib, a: Objects, b: Objects, r: Request, parts: seq<Bytes>)
    requires SameObjects(a, b, r.ds, r.name) && Holds(a, r, parts)
    ensures Holds(b, r, parts)
    ensures HoldsManifest(l, a, r, parts) ==> HoldsManifest(l, b, r, parts)
  {
    forall i | 0 <= i < |parts|
      ensures ChunkKey(r.ds, r.name, i) in b && b[ChunkKey(r.ds, r.name, i)] == parts[i]
    {
      assert ChunkKey(r.ds, r.name, i) in a;
    }
    assert ManifestKey(r.ds, r.name) in a <==> ManifestKey(r.ds, r.name) in b;
  }

  lemma ArchivedFrame(l: Lib, a: Catalog, sa: Objects, b: Catalog, sb: Objects, e: Id, u: Upload)
    requires Archived(l, a, sa, e, u) && SameUploadRows(a, b, e, u) && SameObjects(sa, sb, u.req.ds, u.req.name)
    ensures Archived(l, b, sb, e, u)
  {
    HoldsFrame(l, sa, sb, u.req, u.parts);
  }

  lemma LiveFrame(l: Lib, a: Catalog, sa: Objects, b: Catalog, sb: Objects, e: Id, u: Upload)
    requires LiveUpload(l, a, sa, e, u) && SameUploadRows(a, b, e, u) && SameObjects(sa, sb, u.req.ds, u.req.name)
    requires a.snapshots[u.snap].parent.Some? ==>
      a.snapshots[u.snap].parent.value in b.snapshots && b.snapshots[a.snapshots[u.snap].parent.value].status == Committed
    ensures LiveUpload(l, b, sb, e, u)
  {
    HoldsFrame(l, sa, sb, u.req, u.parts);
    if u.at.Stored? {
      assert ChunkKey(u.req.ds, u.req.name, |u.parts|) in sa;
    }
  }

  /** Two snapshots never share an object key. */
  lemma NamesApart(c: Catalog, s: Id, t: Id)
    requires CatalogOk(c) && s in c.snapshots && t in c.snapshots && s != t
    ensures c.datasets[c.snapshots[s].dataset] != c.datasets[c.snapshots[t].dataset]
         || c.snapshots[s].name != c.snapshots[t].name
  {
    hide SessionRowsOk, ChunkRowsOk, OperationRowsOk, StatusOk, RefsOk, LinksOk;
  }
}
