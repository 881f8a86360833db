/** The whole service as a state machine: one SQL statement, one transaction or one object-store call per step.
    Upload handlers, the cleanup worker and the startup reconciler interleave freely, and the process may crash
    at any step. */
module Machine {
  import opened Base
  import opened Manifests
  import opened Catalogs
  import opened Lineage
  import opened Streams
  import Keys

  /** Where an upload handler stands inside Receive. */
  datatype UploadAt = Reading | Stored(data: Bytes) | Recorded | Manifesting | ManifestStored | Ready

  datatype Upload = Upload(d: Id, snap: Id, op: Id, req: Request, parts: seq<Bytes>, at: UploadAt)

  /** One row of ListPendingCleanupOperations, as it was when listed. */
  datatype Job = Job(op: Id, dataset: Option<Id>, snapshot: Option<Id>)

  datatype DeletionAt = Begun | Counted | Listed(keys: seq<Key>) | Removing(keys: seq<Key>, next: nat)

  datatype Deletion = Deletion(job: Job, at: DeletionAt)

  datatype ReconcileAt = AtSnapshot | AtSession | AtOperation

  datatype Mode = Starting | Reconciling(todo: seq<Id>, at: ReconcileAt) | Serving

  /** live: running upload handlers by session; jobs, deletion: the worker's batch and current job;
      issued: every identifier ever handed out; sent: what the client sent for each snapshot that was committed. */
  datatype World = World(cat: Catalog, store: Objects, live: map<Id, Upload>, mode: Mode,
                         jobs: seq<Job>, deletion: Option<Deletion>, issued: set<Id>, sent: map<Id, (Id, Upload)>)

  const INITIAL := World(EMPTY, map[], map[], Starting, [], None, {}, map[])

  datatype Start = Start(d: Id, req: Request, base: Option<Id>, previous: Option<Id>,
                         snap: Id, sess: Id, op: Id, limit: int)

  datatype Step =
    | StartUpload(start: Start)
    | PutChunk(e: Id, data: Bytes)
    | RecordChunk(e: Id)
    | Progress(e: Id)
    | EndOfStream(e: Id)
    | PutManifest(e: Id)
    | SetManifestKey(e: Id)
    | Commit(e: Id)
    | Fail(e: Id)
    | Abandon(e: Id)
    | QueueSnapshot(op: Id, s: Id)
    | QueueDataset(op: Id, d: Id)
    | ListJobs(jobs: seq<Job>)
    | BeginJob
    | CountDescendants
    | ListKeys(keys: seq<Key>)
    | InvalidateRows
    | RemoveObject
    | FinishJob
    | FailJob
    | DropJob
    | Crash
    | ListStale(stale: seq<Id>)
    | ReconcileSnapshot
    | ReconcileSession
    | ReconcileOperation
    | Serve

  // ---- catalog transactions of an upload ----

  function NewSnapshot(t: Start): Snapshot {
    Snapshot(t.d, t.req.name, t.base, None, Uploading, 0, "", "", "", 0)
  }

  function NewSession(t: Start): Session {
    Session(t.d, Some(t.snap), t.req.name, t.base, SessionUploading, t.req.chunkSize, None)
  }

  /** startUpload after its checks: resolve the dataset, drop a failed predecessor, insert three rows. */
  function StartRows(c: Catalog, t: Start): Catalog {
    var c0 := c.(datasets := c.datasets[t.d := t.req.ds]);
    var c1 := if t.previous.Some? then Purge(c0, {}, {t.previous.value}, {}) else c0;
    c1.(snapshots := c1.snapshots[t.snap := NewSnapshot(t)],
        sessions := c1.sessions[t.sess := NewSession(t)],
        operations := c1.operations[t.op :=
          Operation(UploadOp, Running, Some(t.d), Some(t.snap), Some(t.sess))])
  }

  /** The columns CommitSnapshot writes. */
  datatype Facts = Facts(bytes: nat, sha: string, fromGuid: string, toGuid: string, chunks: nat)

  function FactsOf(l: Lib, u: Upload): Facts {
    Facts(|Concat(u.parts)|, l.sha(Concat(u.parts)), u.req.fromGuid, u.req.toGuid, |u.parts|)
  }

  function StoredRow(s: Snapshot, key: Key, facts: Facts): Snapshot {
    s.(status := Committed, manifestKey := Some(key), storedBytes := facts.bytes, streamSha := facts.sha,
       fromGuid := facts.fromGuid, toGuid := facts.toGuid, chunkCount := facts.chunks)
  }

  function CommittedRow(l: Lib, s: Snapshot, u: Upload): Snapshot {
    StoredRow(s, ManifestKey(u.req.ds, u.req.name), FactsOf(l, u))
  }

  function CommitSnapshot(c: Catalog, s: Id, key: Key, facts: Facts): Catalog {
    if s in c.snapshots
    then c.(snapshots := c.snapshots[s := StoredRow(c.snapshots[s], key, facts)]) else c
  }

  function CompleteSession(c: Catalog, e: Id, key: Key): Catalog {
    if e in c.sessions
    then c.(sessions := c.sessions[e := c.sessions[e].(status := Complete, manifestKey := Some(key))]) else c
  }

  /** CommitUpload: three updates by id in one transaction, with no test of the current status. */
  function CommitStatements(c: Catalog, s: Id, e: Id, o: Id, key: Key, facts: Facts): Catalog {
    SetOperationStatus(CompleteSession(CommitSnapshot(c, s, key, facts), e, key), o, Succeeded)
  }

  function CommitRows(l: Lib, c: Catalog, e: Id, u: Upload): Catalog {
    CommitStatements(c, u.snap, e, u.op, ManifestKey(u.req.ds, u.req.name), FactsOf(l, u))
  }

  /** FailUpload: likewise. */
  function FailStatements(c: Catalog, s: Id, e: Id, o: Id): Catalog {
    SetOperationStatus(SetSessionStatus(SetSnapshotStatus(c, s, Failed), e, SessionFailed), o, OpFailed)
  }

  function FailRows(c: Catalog, e: Id, u: Upload): Catalog {
    FailStatements(c, u.snap, e, u.op)
  }

  function ChunkRowOf(l: Lib, e: Id, r: Request, parts: seq<Bytes>, i: nat): ChunkRow
    requires i < |parts|
  {
    var c := ChunkOf(l, r, parts, i);
    ChunkRow(e, c.key, c.size, c.start, c.end, c.sha)
  }

  // ---- the worker ----

  /** The snapshots a job invalidates and empties. */
  function Targets(c: Catalog, j: Job): set<Id> {
    if j.snapshot.Some? then {j.snapshot.value}
    else if j.dataset.Some? then DatasetSnapshots(c, j.dataset.value)
    else {}
  }

  /** The transaction that closes a job; a blocked DELETE rolls it back and the job fails. */
  function FinishRows(c: Catalog, j: Job): Catalog {
    var removed := if j.snapshot.Some? then RemoveSnapshot(c, j.snapshot.value)
                   else if j.dataset.Some? then DeleteDataset(c, j.dataset.value)
                   else None;
    match removed
    case Some(c') => SetOperationStatus(c', j.op, Succeeded)
    case None => SetOperationStatus(c, j.op, OpFailed)
  }

  function EndJob(w: World, c: Catalog): World
    requires w.jobs != []
  {
    w.(cat := c, jobs := w.jobs[1..], deletion := None)
  }

  /** No deletion overlaps an upload into the same dataset. */
  predicate DeletingIn(w: World, d: Id) {
    w.deletion.Some? && w.deletion.value.job.dataset == Some(d)
  }

  predicate UploadingInto(w: World, d: Option<Id>) {
    exists e :: e in w.live && Some(w.live[e].d) == d
  }

  // ---- guards ----

  /** The checks of startUpload, with its lookups given as arguments. */
  ghost predicate Admits(c: Catalog, issued: set<Id>, t: Start) {
    && (if t.d in c.datasets then c.datasets[t.d] == t.req.ds
        else t.d !in issued && t.req.ds !in c.datasets.Values)
    && (match t.base
        case None => t.req.base == ""
        case Some(b) =>
          && b in c.snapshots && c.snapshots[b].dataset == t.d && c.snapshots[b].name == t.req.base
          && t.req.base != "" && c.snapshots[b].status == Committed
          && Acyclic(ParentsOf(c.snapshots))
          && (t.limit > 0 ==> |Chain(ParentsOf(c.snapshots), b)| + 1 <= t.limit))
    && (match t.previous
        case None => forall s :: s in c.snapshots ==> !(c.snapshots[s].dataset == t.d && c.snapshots[s].name == t.req.name)
        case Some(p) =>
          && p in c.snapshots && c.snapshots[p].dataset == t.d && c.snapshots[p].name == t.req.name
          && c.snapshots[p].status in {Failed, Aborted} && !Blocked(c, {p}, {}))
    && t.snap !in issued && t.sess !in issued && t.op !in issued
    && t.snap != t.sess && t.snap != t.op && t.sess != t.op && t.d !in {t.snap, t.sess, t.op}
  }

  /** Accepted names without dot components: their keys as strings are as distinct as the names. */
  predicate SafeNames(r: Request) {
    Keys.Accepted(r.ds, r.name)
  }

  /** An upload may start while nothing of its dataset is being deleted, and under safe names. */
  ghost predicate CanStart(w: World, t: Start) {
    Admits(w.cat, w.issued, t) && !DeletingIn(w, t.d) && SafeNames(t.req)
  }

  predicate ListedJob(c: Catalog, j: Job) {
    && j.op in c.operations && c.operations[j.op].kind == CleanupOp
    && c.operations[j.op].status in {Queued, Running}
    && j.dataset == c.operations[j.op].dataset && j.snapshot == c.operations[j.op].snapshot
  }

  predicate StaleList(c: Catalog, stale: seq<Id>) {
    && (forall i :: 0 <= i < |stale| ==> stale[i] in c.sessions && Active(c.sessions[stale[i]].status))
    && (forall i, j :: 0 <= i < j < |stale| ==> stale[i] != stale[j])
  }

  predicate CanPutChunk(w: World, e: Id, data: Bytes) {
    e in w.live && w.live[e].at.Reading? && data != []
  }

  predicate CanRecordChunk(l: Lib, w: World, e: Id) {
    e in w.live && w.live[e].at.Stored? && RecordedRows(l, w.cat, e, w.live[e]).Some?
  }

  predicate CanPutManifest(l: Lib, w: World, e: Id) {
    e in w.live && w.live[e].at.Manifesting? && WellFormed(ManifestOf(l, w.live[e].req, w.live[e].parts))
  }

  predicate CanListJobs(w: World, jobs: seq<Job>) {
    w.jobs == [] && w.deletion.None? && forall i :: 0 <= i < |jobs| ==> ListedJob(w.cat, jobs[i])
  }

  predicate CanBeginJob(w: World) {
    w.jobs != [] && w.deletion.None? && !UploadingInto(w, w.jobs[0].dataset)
  }

  ghost predicate CanCount(w: World) {
    w.jobs != [] && w.deletion.Some? && w.deletion.value.at.Begun? && Acyclic(ParentsOf(w.cat.snapshots))
  }

  predicate CanListKeys(w: World, keys: seq<Key>) {
    && w.deletion.Some? && w.deletion.value.at.Counted?
    && (forall k :: k in keys ==> k in ObjectKeys(w.cat, Targets(w.cat, w.deletion.value.job)))
    && (forall k :: k in ObjectKeys(w.cat, Targets(w.cat, w.deletion.value.job)) ==> k in keys)
  }

  predicate CanRemove(w: World) {
    w.deletion.Some? && w.deletion.value.at.Removing? && w.deletion.value.at.next < |w.deletion.value.at.keys|
  }

  predicate CanFinish(w: World) {
    && w.jobs != [] && w.deletion.Some? && w.deletion.value.at.Removing?
    && w.deletion.value.at.next == |w.deletion.value.at.keys|
  }

  predicate ReconcilingAt(w: World, at: ReconcileAt) {
    w.mode.Reconciling? && w.mode.todo != [] && w.mode.at == at
  }

  ghost predicate Enabled(l: Lib, w: World, step: Step) {
    match step
    case Crash => true
    case ListStale(stale) => w.mode == Starting && StaleList(w.cat, stale)
    case ReconcileSnapshot => ReconcilingAt(w, AtSnapshot)
    case ReconcileSession => ReconcilingAt(w, AtSession)
    case ReconcileOperation => ReconcilingAt(w, AtOperation)
    case Serve => w.mode == Starting || (w.mode.Reconciling? && w.mode.todo == [])
    case _ => w.mode == Serving && EnabledServing(l, w, step)
  }

  ghost predicate EnabledServing(l: Lib, w: World, step: Step) {
    match step
    case StartUpload(t) => CanStart(w, t)
    case PutChunk(e, data) => CanPutChunk(w, e, data)
    case RecordChunk(e) => CanRecordChunk(l, w, e)
    case Progress(e) => e in w.live && w.live[e].at.Recorded?
    case EndOfStream(e) => e in w.live && w.live[e].at.Reading? && w.live[e].parts != []
    case PutManifest(e) => CanPutManifest(l, w, e)
    case SetManifestKey(e) => e in w.live && w.live[e].at.ManifestStored?
    case Commit(e) => e in w.live && w.live[e].at.Ready?
    case Fail(e) => e in w.live
    case Abandon(e) => e in w.live
    case QueueSnapshot(op, s) => op !in w.issued && s in w.cat.snapshots
    case QueueDataset(op, d) => op !in w.issued && d in w.cat.datasets
    case ListJobs(jobs) => CanListJobs(w, jobs)
    case BeginJob => CanBeginJob(w)
    case CountDescendants => CanCount(w)
    case ListKeys(keys) => CanListKeys(w, keys)
    case InvalidateRows => w.deletion.Some? && w.deletion.value.at.Listed?
    case RemoveObject => CanRemove(w)
    case FinishJob => CanFinish(w)
    case FailJob => w.jobs != [] && w.deletion.Some?
    case DropJob => w.jobs != []
    case _ => false
  }

  // ---- effects ----

  function Started(w: World, t: Start): World {
    w.(cat := StartRows(w.cat, t),
       live := w.live[t.sess := Upload(t.d, t.snap, t.op, t.req, [], Reading)],
       issued := w.issued + {t.d, t.snap, t.sess, t.op})
  }

  function ChunkPut(w: World, e: Id, data: Bytes): World
    requires CanPutChunk(w, e, data)
  {
    var u := w.live[e];
    w.(store := w.store[ChunkKey(u.req.ds, u.req.name, |u.parts|) := data],
       live := w.live[e := u.(at := Stored(data))])
  }

  function RecordedRows(l: Lib, c: Catalog, e: Id, u: Upload): Option<Catalog>
    requires u.at.Stored?
  {
    InsertChunk(c, u.snap, |u.parts|, ChunkRowOf(l, e, u.req, u.parts + [u.at.data], |u.parts|))
  }

  function ChunkRecorded(l: Lib, w: World, e: Id): World
    requires CanRecordChunk(l, w, e)
  {
    var u := w.live[e];
    w.(cat := RecordedRows(l, w.cat, e, u).value,
       live := w.live[e := u.(parts := u.parts + [u.at.data], at := Recorded)])
  }

  function SessionMoved(w: World, e: Id, status: SessionStatus, at: UploadAt): World
    requires e in w.live
  {
    w.(cat := SetSessionStatus(w.cat, e, status), live := w.live[e := w.live[e].(at := at)])
  }

  function ManifestPut(l: Lib, w: World, e: Id): World
    requires e in w.live
  {
    var u := w.live[e];
    w.(store := w.store[ManifestKey(u.req.ds, u.req.name) := l.marshal(ManifestOf(l, u.req, u.parts))],
       live := w.live[e := u.(at := ManifestStored)])
  }

  function ManifestKeySet(w: World, e: Id): World
    requires e in w.live
  {
    var u := w.live[e];
    w.(cat := SetSessionManifestKey(w.cat, e, ManifestKey(u.req.ds, u.req.name)),
       live := w.live[e := u.(at := Ready)])
  }

  function UploadCommitted(l: Lib, w: World, e: Id): World
    requires e in w.live
  {
    var u := w.live[e];
    w.(cat := CommitRows(l, w.cat, e, u), live := w.live - {e}, sent := w.sent[u.snap := (e, u)])
  }

  function UploadFailed(w: World, e: Id): World
    requires e in w.live
  {
    w.(cat := FailRows(w.cat, e, w.live[e]), live := w.live - {e})
  }

  function JobQueued(w: World, op: Id, d: Id, s: Option<Id>): World {
    w.(cat := w.cat.(operations := w.cat.operations[op := Operation(CleanupOp, Queued, Some(d), s, None)]),
       issued := w.issued + {op})
  }

  function JobBegun(w: World): World
    requires w.jobs != []
  {
    var j := w.jobs[0];
    var running := SetOperationStatus(w.cat, j.op, Running);
    if j.snapshot.None? && j.dataset.None? then EndJob(w, SetOperationStatus(running, j.op, OpFailed))
    else w.(cat := running, deletion := Some(Deletion(j, Begun)))
  }

  ghost function JobCounted(w: World): World
    requires CanCount(w)
  {
    var j := w.deletion.value.job;
    if j.snapshot.Some? && CountCommittedDescendants(w.cat.snapshots, j.snapshot.value) > 0
    then JobFailed(w)
    else w.(deletion := Some(Deletion(j, Counted)))
  }

  function JobFailed(w: World): World
    requires w.jobs != [] && w.deletion.Some?
  {
    EndJob(w, SetOperationStatus(w.cat, w.deletion.value.job.op, OpFailed))
  }

  function KeysListed(w: World, keys: seq<Key>): World
    requires w.deletion.Some?
  {
    w.(deletion := Some(Deletion(w.deletion.value.job, Listed(keys))))
  }

  function RowsInvalidated(w: World): World
    requires w.deletion.Some? && w.deletion.value.at.Listed?
  {
    var j := w.deletion.value.job;
    w.(cat := Invalidate(w.cat, Targets(w.cat, j)),
       deletion := Some(Deletion(j, Removing(w.deletion.value.at.keys, 0))))
  }

  function ObjectRemoved(w: World): World
    requires CanRemove(w)
  {
    var at := w.deletion.value.at;
    w.(store := w.store - {at.keys[at.next]},
       deletion := Some(Deletion(w.deletion.value.job, Removing(at.keys, at.next + 1))))
  }

  function JobFinished(w: World): World
    requires w.jobs != [] && w.deletion.Some?
  {
    EndJob(w, FinishRows(w.cat, w.deletion.value.job))
  }

  function Crashed(w: World): World {
    w.(live := map[], mode := Starting, jobs := [], deletion := None)
  }

  function SnapshotReconciled(w: World): World
    requires ReconcilingAt(w, AtSnapshot)
  {
    var e := w.mode.todo[0];
    var failed := if e in w.cat.sessions && w.cat.sessions[e].snapshot.Some?
                  then SetSnapshotStatus(w.cat, w.cat.sessions[e].snapshot.value, Failed) else w.cat;
    w.(cat := failed, mode := Reconciling(w.mode.todo, AtSession))
  }

  function SessionReconciled(w: World): World
    requires ReconcilingAt(w, AtSession)
  {
    w.(cat := SetSessionStatus(w.cat, w.mode.todo[0], SessionFailed), mode := Reconciling(w.mode.todo, AtOperation))
  }

  function OperationReconciled(w: World): World
    requires ReconcilingAt(w, AtOperation)
  {
    w.(cat := FailOperationsOf(w.cat, w.mode.todo[0]), mode := Reconciling(w.mode.todo[1..], AtSnapshot))
  }

  predicate OfUpload(step: Step) {
    step.StartUpload? || step.PutChunk? || step.RecordChunk? || step.Progress? || step.EndOfStream?
    || step.PutManifest? || step.SetManifestKey? || step.Commit? || step.Fail? || step.Abandon?
  }

  predicate OfStartup(step: Step) {
    step.Crash? || step.ListStale? || step.ReconcileSnapshot? || step.ReconcileSession? || step.ReconcileOperation?
    || step.Serve?
  }

  function ApplyUpload(l: Lib, w: World, step: Step): World
    requires OfUpload(step)
    requires step.PutChunk? ==> CanPutChunk(w, step.e, step.data)
    requires step.RecordChunk? ==> CanRecordChunk(l, w, step.e)
    requires !step.StartUpload? ==> step.e in w.live
  {
    match step
    case StartUpload(t) => Started(w, t)
    case PutChunk(e, data) => ChunkPut(w, e, data)
    case RecordChunk(e) => ChunkRecorded(l, w, e)
    case Progress(e) => SessionMoved(w, e, WritingChunk, Reading)
    case EndOfStream(e) => SessionMoved(w, e, CommittingManifest, Manifesting)
    case PutManifest(e) => ManifestPut(l, w, e)
    case SetManifestKey(e) => ManifestKeySet(w, e)
    case Commit(e) => UploadCommitted(l, w, e)
    case Fail(e) => UploadFailed(w, e)
    case Abandon(e) => w.(live := w.live - {e})
  }

  function ApplyStartup(w: World, step: Step): World
    requires OfStartup(step)
    requires step.ReconcileSnapshot? ==> ReconcilingAt(w, AtSnapshot)
    requires step.ReconcileSession? ==> ReconcilingAt(w, AtSession)
    requires step.ReconcileOperation? ==> ReconcilingAt(w, AtOperation)
  {
    match step
    case Crash => Crashed(w)
    case ListStale(stale) => w.(mode := Reconciling(stale, AtSnapshot))
    case ReconcileSnapshot => SnapshotReconciled(w)
    case ReconcileSession => SessionReconciled(w)
    case ReconcileOperation => OperationReconciled(w)
    case Serve => w.(mode := Serving)
  }

  /** A step that is not enabled does nothing. */
  ghost function Apply(l: Lib, w: World, step: Step): World {
    if !Enabled(l, w, step) then w
    else if OfUpload(step) then ApplyUpload(l, w, step)
    else if OfStartup(step) then ApplyStartup(w, step)
    else
      match step
      case QueueSnapshot(op, s) => JobQueued(w, op, w.cat.snapshots[s].dataset, Some(s))
      case QueueDataset(op, d) => JobQueued(w, op, d, None)
      case ListJobs(jobs) => w.(jobs := jobs)
      case BeginJob => JobBegun(w)
      case CountDescendants => JobCounted(w)
      case ListKeys(keys) => KeysListed(w, keys)
      case InvalidateRows => RowsInvalidated(w)
      case RemoveObject => ObjectRemoved(w)
      case FinishJob => JobFinished(w)
      case FailJob => JobFailed(w)
      case DropJob => EndJob(w, w.cat)
  }

  /** A run: every step enabled where it is taken. */
  ghost predicate IsRun(l: Lib, w: World, steps: seq<Step>)
    decreases |steps|
  {
    steps == [] || (Enabled(l, w, steps[0]) && IsRun(l, Apply(l, w, steps[0]), steps[1..]))
  }

  ghost function After(l: Lib, w: World, steps: seq<Step>): World
    decreases |steps|
  {
    if steps == [] then w else After(l, Apply(l, w, steps[0]), steps[1..])
  }

  lemma RunCons(l: Lib, w: World, step: Step, rest: seq<Step>)
    requires Enabled(l, w, step) && IsRun(l, Apply(l, w, step), rest)
    ensures IsRun(l, w, [step] + rest) && After(l, w, [step] + rest) == After(l, Apply(l, w, step), rest)
  {
    hide Enabled, Apply;
    assert ([step] + rest)[1..] == rest;
  }

  lemma {:induction false} RunSnoc(l: Lib, w: World, steps: seq<Step>, step: Step)
    requires IsRun(l, w, steps) && Enabled(l, After(l, w, steps), step)
    ensures IsRun(l, w, steps + [step]) && After(l, w, steps + [step]) == Apply(l, After(l, w, steps), step)
    decreases |steps|
  {
    hide Enabled, Apply;
    if steps == [] {
      assert steps + [step] == [step];
      assert [step][1..] == [];
    } else {
      RunSnoc(l, Apply(l, w, steps[0]), steps[1..], step);
      assert (steps + [step])[1..] == steps[1..] + [step];
    }
  }
}
