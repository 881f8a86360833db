/** The objects as the object store sees them: under string keys (internal/storage/keys.go). Over every run they are
    what the machine's structured store holds, and UNIQUE on string keys rejects nothing. */
module Files {
  import opened Base
  import opened Manifests
  import opened Catalogs
  import opened Lineage
  import opened Streams
  import opened Machine
  import opened Invariant
  import opened SafetyStart
  import opened Theorems
  import opened LineageTheorems
  import opened Deletions
  import opened AutoReceive
  import Cleanups
  import Keys

  type Blobs = map<string, Bytes>

  /** The string a key is stored under; every name the server accepts is a byte string. */
  function Text(root: string, key: Key): string {
    if Keys.ByteName(key.ds, key.snapshot) then Keys.Render(root, key) else ""
  }

  /** What a step does to the object store: only three steps call it. */
  function FileStep(l: Lib, root: string, w: World, files: Blobs, step: Step): Blobs {
    match step
    case PutChunk(e, data) =>
      if e in w.live
      then files[Text(root, ChunkKey(w.live[e].req.ds, w.live[e].req.name, |w.live[e].parts|)) := data] else files
    case PutManifest(e) =>
      if e in w.live
      then files[Text(root, ManifestKey(w.live[e].req.ds, w.live[e].req.name))
                 := l.marshal(ManifestOf(l, w.live[e].req, w.live[e].parts))] else files
    case RemoveObject =>
      if CanRemove(w) then files - {Text(root, w.deletion.value.at.keys[w.deletion.value.at.next])} else files
    case _ => files
  }

  ghost function FilesAfter(l: Lib, root: string, w: World, files: Blobs, steps: seq<Step>): Blobs
    requires IsRun(l, w, steps)
    decreases |steps|
  {
    if steps == [] then files
    else FilesAfter(l, root, Apply(l, w, steps[0]), FileStep(l, root, w, files, steps[0]), steps[1..])
  }

  // ---- every name in the catalog is safe ----

  ghost predicate RowsNamed(c: Catalog) {
    forall s :: s in c.snapshots && c.snapshots[s].dataset in c.datasets ==>
      Keys.Accepted(c.datasets[c.snapshots[s].dataset], c.snapshots[s].name)
  }

  function ListedKeys(deletion: Option<Deletion>): seq<Key> {
    match deletion
    case None => []
    case Some(x) =>
      match x.at
      case Listed(keys) => keys
      case Removing(keys, _) => keys
      case _ => []
  }

  ghost predicate KeysNamed(keys: seq<Key>) {
    forall k :: k in keys ==> Keys.Accepted(k.ds, k.snapshot)
  }

  ghost predicate NamesOk(w: World) {
    RowsNamed(w.cat) && KeysNamed(ListedKeys(w.deletion))
  }

  lemma ObjectNamed(c: Catalog, gone: set<Id>, k: Key)
    requires CatalogOk(c) && RowsNamed(c) && k in ObjectKeys(c, gone)
    ensures Keys.Accepted(k.ds, k.snapshot)
  {
    hide SessionRowsOk, OperationRowsOk, UniqueOk, StatusOk, RefsOk, LinksOk, Keys.Accepted;
  }

  lemma LiveNamed(l: Lib, w: World, e: Id)
    requires LiveOk(l, w) && RowsNamed(w.cat) && e in w.live
    ensures Keys.Accepted(w.live[e].req.ds, w.live[e].req.name)
  {
    hide Holds, RowsWritten, AtOk, Keys.Accepted, Active;
    assert RowMatches(w.cat, e, w.live[e]);
  }

  // ---- steps keep the names ----

  /** Rows of datasets may go, but none is added or renamed. */
  ghost predicate FewerDatasets(a: Catalog, b: Catalog) {
    forall d :: d in b.datasets ==> d in a.datasets && b.datasets[d] == a.datasets[d]
  }

  ghost predicate SameNamed(a: map<Id, Snapshot>, b: map<Id, Snapshot>) {
    forall s :: s in b ==> s in a && b[s].dataset == a[s].dataset && b[s].name == a[s].name
  }

  lemma FewerNamed(a: Catalog, b: Catalog)
    requires RowsNamed(a) && FewerDatasets(a, b) && SameNamed(a.snapshots, b.snapshots)
    ensures RowsNamed(b)
  {
    hide Keys.Accepted;
  }

  lemma EndDatasets(l: Lib, c: Catalog, e: Id, u: Upload)
    ensures CommitRows(l, c, e, u).datasets == c.datasets && FailRows(c, e, u).datasets == c.datasets
  {
    hide CommitSnapshot, CompleteSession, SetSnapshotStatus, SetSessionStatus, SetOperationStatus;
    var key := ManifestKey(u.req.ds, u.req.name);
    var c1 := CommitSnapshot(c, u.snap, key, FactsOf(l, u));
    Cleanups.CommitFrames(l, c, u, e, key);
    Cleanups.CommitFrames(l, c1, u, e, key);
    MarkingRows(CompleteSession(c1, e, key), u.op, Succeeded);
    var c2 := SetSnapshotStatus(c, u.snap, Failed);
    Cleanups.FailFrames(c, u.snap, e);
    Cleanups.FailFrames(c2, u.snap, e);
    MarkingRows(SetSessionStatus(c2, e, SessionFailed), u.op, OpFailed);
  }

  lemma UploadDatasets(l: Lib, w: World, step: Step)
    requires Enabled(l, w, step) && OfUpload(step) && !step.StartUpload?
    ensures Apply(l, w, step).cat.datasets == w.cat.datasets
  {
    hide ManifestOf, ChunkRowOf, CommitRows, FailRows, ApplyStartup, Started, Active;
    if step.Commit? || step.Fail? {
      EndDatasets(l, w.cat, step.e, w.live[step.e]);
    }
  }

  lemma StartupDatasets(l: Lib, w: World, step: Step)
    requires Enabled(l, w, step) && OfStartup(step)
    ensures Apply(l, w, step).cat.datasets == w.cat.datasets && Apply(l, w, step).store == w.store
    ensures Apply(l, w, step).deletion.Some? ==> Apply(l, w, step).deletion == w.deletion
  {
    hide EnabledServing, StaleList, ApplyUpload;
  }

  lemma WorkerDatasets(l: Lib, w: World, step: Step)
    requires Enabled(l, w, step) && !OfUpload(step) && !OfStartup(step)
    ensures FewerDatasets(w.cat, Apply(l, w, step).cat)
  {
    hide CountCommittedDescendants, Acyclic, Targets, ObjectKeys, ListedJob, UploadingInto, ApplyUpload, ApplyStartup;
    hide FinishRows, JobBegun, JobFailed, JobCounted;
    if step.FinishJob? {
      FinishDatasets(w.cat, w.deletion.value.job);
    } else if step.BeginJob? || step.CountDescendants? || step.FailJob? {
      JobDatasets(w);
    }
  }

  lemma FinishDatasets(c: Catalog, j: Job)
    ensures FewerDatasets(c, FinishRows(c, j))
  {
    hide Blocked, SetOperationStatus;
    MarkingRows(c, j.op, OpFailed);
    match (if j.snapshot.Some? then RemoveSnapshot(c, j.snapshot.value)
           else if j.dataset.Some? then DeleteDataset(c, j.dataset.value) else None) {
      case Some(r) => MarkingRows(r, j.op, Succeeded);
      case None =>
    }
  }

  lemma JobDatasets(w: World)
    requires w.jobs != []
    ensures JobBegun(w).cat.datasets == w.cat.datasets
    ensures w.deletion.Some? ==> JobFailed(w).cat.datasets == w.cat.datasets
    ensures CanCount(w) ==> JobCounted(w).cat.datasets == w.cat.datasets
  {
    hide Acyclic, CountCommittedDescendants, SetOperationStatus;
    var o := w.jobs[0].op;
    MarkingRows(w.cat, o, Running);
    MarkingRows(SetOperationStatus(w.cat, o, Running), o, OpFailed);
    if w.deletion.Some? {
      MarkingRows(w.cat, w.deletion.value.job.op, OpFailed);
    }
  }

  lemma StartNamed(l: Lib, w: World, t: Start)
    requires Inv(l, w) && CanStart(w, t) && RowsNamed(w.cat)
    ensures RowsNamed(Started(w, t).cat)
  {
    hide CommittedOk, LiveOk, WorkerOk, ModeOk, SessionRowsOk, ChunkRowsOk, OperationRowsOk, UniqueOk, StatusOk;
    hide RefsOk, LinksOk, Acyclic, Chain, Blocked, Keys.Accepted, StartRows;
    StartSnapshots(w.cat, t);
    assert StartRows(w.cat, t).datasets == w.cat.datasets[t.d := t.req.ds] by { StartDatasets(w.cat, t); }
  }

  lemma StartDatasets(c: Catalog, t: Start)
    ensures StartRows(c, t).datasets == c.datasets[t.d := t.req.ds]
  {
    assert c.datasets[t.d := t.req.ds] - {} == c.datasets[t.d := t.req.ds];
  }

  lemma SettledNamed(a: map<Id, Snapshot>, b: map<Id, Snapshot>)
    requires Settles(a, b)
    ensures SameNamed(a, b)
  {
  }

  lemma CommitNamed(l: Lib, c: Catalog, e: Id, u: Upload)
    ensures SameNamed(c.snapshots, CommitRows(l, c, e, u).snapshots)
  {
    hide CommitRows;
    CommitSnapshotsOnly(l, c, e, u);
  }

  lemma StepRowsNamed(l: Lib, w: World, step: Step)
    requires Inv(l, w) && Enabled(l, w, step) && RowsNamed(w.cat)
    ensures RowsNamed(Apply(l, w, step).cat)
  {
    hide Inv, RowsNamed, CanStart, Settles, CommitRows, SameNamed;
    if step.StartUpload? {
      StartNamed(l, w, step.start);
    } else {
      if step.Commit? {
        CommitNamed(l, w.cat, step.e, w.live[step.e]);
      } else {
        if MovesUpload(step) {
          UploadSettles(l, w, step);
        } else if MovesJob(step) || step.FinishJob? {
          JobSettles(l, w, step);
        } else {
          OtherSettles(l, w, step);
        }
        SettledNamed(w.cat.snapshots, Apply(l, w, step).cat.snapshots);
      }
      StepDatasets(l, w, step);
      FewerNamed(w.cat, Apply(l, w, step).cat);
    }
  }

  lemma StepDatasets(l: Lib, w: World, step: Step)
    requires Enabled(l, w, step) && !step.StartUpload?
    ensures FewerDatasets(w.cat, Apply(l, w, step).cat)
  {
    hide Enabled, Apply;
    if OfUpload(step) {
      UploadDatasets(l, w, step);
    } else if OfStartup(step) {
      StartupDatasets(l, w, step);
    } else {
      WorkerDatasets(l, w, step);
    }
  }

  lemma StepKeysNamed(l: Lib, w: World, step: Step)
    requires Inv(l, w) && Enabled(l, w, step) && NamesOk(w)
    ensures KeysNamed(ListedKeys(Apply(l, w, step).deletion))
  {
    hide CatalogOk, CommittedOk, LiveOk, WorkerOk, ModeOk, IssuedOk, RowsNamed, Keys.Accepted;
    if step.ListKeys? {
      forall k | k in step.keys ensures Keys.Accepted(k.ds, k.snapshot) {
        ObjectNamed(w.cat, Targets(w.cat, w.deletion.value.job), k);
      }
    } else {
      hide KeysNamed;
      StepListedKeys(l, w, step);
    }
  }

  lemma StepListedKeys(l: Lib, w: World, step: Step)
    requires Enabled(l, w, step) && !step.ListKeys?
    ensures ListedKeys(Apply(l, w, step).deletion) in {[], ListedKeys(w.deletion)}
  {
    hide ListedKeys, Enabled, Apply;
    if OfUpload(step) {
      UploadDeletion(l, w, step);
    } else if OfStartup(step) {
      StartupDatasets(l, w, step);
      NothingListed();
    } else {
      WorkerListedKeys(l, w, step);
    }
  }

  lemma NothingListed()
    ensures ListedKeys(None) == []
  {
  }

  lemma UploadDeletion(l: Lib, w: World, step: Step)
    requires Enabled(l, w, step) && OfUpload(step)
    ensures Apply(l, w, step).deletion == w.deletion && Apply(l, w, step).jobs == w.jobs
    ensures !step.PutChunk? && !step.PutManifest? ==> Apply(l, w, step).store == w.store
  {
    hide ManifestOf, ChunkRowOf, CommitRows, FailRows, StartRows, ApplyStartup, CanStart, RecordedRows, WellFormed;
  }

  lemma WorkerListedKeys(l: Lib, w: World, step: Step)
    requires Enabled(l, w, step) && !OfUpload(step) && !OfStartup(step) && !step.ListKeys?
    ensures ListedKeys(Apply(l, w, step).deletion) in {[], ListedKeys(w.deletion)}
    ensures !step.RemoveObject? ==> Apply(l, w, step).store == w.store
  {
    hide CountCommittedDescendants, Acyclic, Targets, ObjectKeys, ListedJob, UploadingInto, ApplyUpload, ApplyStartup;
    hide FinishRows, SetOperationStatus, Invalidate;
  }

  // ---- one step in both stores ----

  lemma StepMirrors(l: Lib, root: string, w: World, files: Blobs, step: Step)
    requires Inv(l, w) && Enabled(l, w, step) && NamesOk(w) && Keys.Mirrors(root, w.store, files)
    ensures Keys.Mirrors(root, Apply(l, w, step).store, FileStep(l, root, w, files, step))
  {
    hide Inv, Enabled, Apply, Keys.Mirrors, NamesOk, Text;
    if step.PutChunk? {
      PutChunkMirrors(l, root, w, files, step);
    } else if step.PutManifest? {
      PutManifestMirrors(l, root, w, files, step);
    } else if step.RemoveObject? {
      RemoveMirrors(l, root, w, files, step);
    } else if OfUpload(step) {
      UploadDeletion(l, w, step);
    } else if OfStartup(step) {
      StartupDatasets(l, w, step);
    } else if !step.ListKeys? {
      WorkerListedKeys(l, w, step);
    } else {
      ListingStores(l, w, step);
    }
  }

  lemma ListingStores(l: Lib, w: World, step: Step)
    requires Enabled(l, w, step) && step.ListKeys?
    ensures Apply(l, w, step).store == w.store
  {
    hide ObjectKeys, Targets;
  }

  lemma InvLive(l: Lib, w: World)
    requires Inv(l, w)
    ensures LiveOk(l, w)
  {
    hide CatalogOk, CommittedOk, LiveOk, WorkerOk, ModeOk, IssuedOk;
  }

  lemma PutChunkMirrors(l: Lib, root: string, w: World, files: Blobs, step: Step)
    requires Inv(l, w) && Enabled(l, w, step) && NamesOk(w) && Keys.Mirrors(root, w.store, files) && step.PutChunk?
    ensures Keys.Mirrors(root, Apply(l, w, step).store, FileStep(l, root, w, files, step))
  {
    hide Inv, Keys.Mirrors, RowsNamed, KeysNamed, Keys.Accepted, Keys.Render, Keys.ByteName;
    InvLive(l, w);
    LiveNamed(l, w, step.e);
    var u := w.live[step.e];
    Keys.AcceptedBytes(u.req.ds, u.req.name);
    Keys.MirrorsOperations(root, w.store, files, ChunkKey(u.req.ds, u.req.name, |u.parts|), step.data);
  }

  lemma PutManifestMirrors(l: Lib, root: string, w: World, files: Blobs, step: Step)
    requires Inv(l, w) && Enabled(l, w, step) && NamesOk(w) && Keys.Mirrors(root, w.store, files) && step.PutManifest?
    ensures Keys.Mirrors(root, Apply(l, w, step).store, FileStep(l, root, w, files, step))
  {
    hide Inv, Keys.Mirrors, RowsNamed, KeysNamed, Keys.Accepted, Keys.Render, Keys.ByteName, ManifestOf, WellFormed;
    InvLive(l, w);
    LiveNamed(l, w, step.e);
    var u := w.live[step.e];
    Keys.AcceptedBytes(u.req.ds, u.req.name);
    Keys.MirrorsOperations(root, w.store, files, ManifestKey(u.req.ds, u.req.name), l.marshal(ManifestOf(l, u.req, u.parts)));
  }

  lemma RemoveMirrors(l: Lib, root: string, w: World, files: Blobs, step: Step)
    requires Inv(l, w) && Enabled(l, w, step) && NamesOk(w) && Keys.Mirrors(root, w.store, files) && step.RemoveObject?
    ensures Keys.Mirrors(root, Apply(l, w, step).store, FileStep(l, root, w, files, step))
  {
    hide Inv, Keys.Mirrors, RowsNamed, Keys.Accepted, Keys.Render, Keys.ByteName;
    var key := w.deletion.value.at.keys[w.deletion.value.at.next];
    assert key in ListedKeys(w.deletion);
    Keys.AcceptedBytes(key.ds, key.snapshot);
    Keys.MirrorsOperations(root, w.store, files, key, []);
  }

  /** Over every run the string-keyed store holds exactly the objects of the structured one. */
  lemma {:induction false} RunMirrors(l: Lib, root: string, w: World, files: Blobs, steps: seq<Step>)
    requires Inv(l, w) && NamesOk(w) && Keys.Mirrors(root, w.store, files) && IsRun(l, w, steps)
    ensures Inv(l, After(l, w, steps)) && NamesOk(After(l, w, steps))
    ensures Keys.Mirrors(root, After(l, w, steps).store, FilesAfter(l, root, w, files, steps))
    decreases |steps|
  {
    hide Inv, Enabled, Apply, RowsNamed, KeysNamed, Keys.Mirrors, FileStep;
    if steps != [] {
      StepRowsNamed(l, w, steps[0]);
      StepKeysNamed(l, w, steps[0]);
      StepMirrors(l, root, w, files, steps[0]);
      StepKeeps(l, w, steps[0]);
      RunMirrors(l, root, Apply(l, w, steps[0]), FileStep(l, root, w, files, steps[0]), steps[1..]);
    }
  }

  lemma InitialNames(root: string)
    ensures NamesOk(INITIAL) && Keys.Mirrors(root, INITIAL.store, map[])
  {
  }

  /** In every run of the service the object store, under string keys, holds what the machine says and no more. */
  lemma FilesFollow(l: Lib, root: string, steps: seq<Step>)
    requires IsRun(l, INITIAL, steps)
    ensures Keys.Mirrors(root, After(l, INITIAL, steps).store, FilesAfter(l, root, INITIAL, map[], steps))
  {
    hide IsRun, After, FilesAfter, Inv, NamesOk, Keys.Mirrors;
    InitialInv(l);
    InitialNames(root);
    RunMirrors(l, root, INITIAL, map[], steps);
  }

  // ---- UNIQUE(object_key) is on strings ----

  /** CreateSnapshotChunk as the schema has it, its keys rendered. */
  function InsertByText(root: string, c: Catalog, s: Id, i: nat, row: ChunkRow): Option<Catalog> {
    if s in c.snapshots && row.session in c.sessions && (s, i) !in c.chunks
       && (forall k :: k in c.chunks ==> Text(root, c.chunks[k].key) != Text(root, row.key))
    then Some(c.(chunks := c.chunks[(s, i) := row]))
    else None
  }

  lemma TextApart(root: string, a: Key, b: Key)
    requires Keys.Accepted(a.ds, a.snapshot) && Keys.Accepted(b.ds, b.snapshot)
    ensures Text(root, a) == Text(root, b) <==> a == b
  {
    hide Keys.Accepted, Keys.Render, Keys.ByteName;
    Keys.AcceptedBytes(a.ds, a.snapshot);
    Keys.AcceptedBytes(b.ds, b.snapshot);
    if Text(root, a) == Text(root, b) {
      Keys.RenderInjective(root, a, b);
    }
  }

  lemma TextUnique(root: string, c: Catalog, s: Id, i: nat, row: ChunkRow)
    requires CatalogOk(c) && RowsNamed(c) && Keys.Accepted(row.key.ds, row.key.snapshot)
    ensures InsertByText(root, c, s, i, row) == InsertChunk(c, s, i, row)
  {
    hide CatalogOk, RowsNamed, Keys.Accepted, Text;
    forall k | k in c.chunks ensures Text(root, c.chunks[k].key) == Text(root, row.key) <==> c.chunks[k].key == row.key {
      assert c.chunks[k].key in ObjectKeys(c, {k.0});
      ObjectNamed(c, {k.0}, c.chunks[k].key);
      TextApart(root, c.chunks[k].key, row.key);
    }
  }

  /** The row of a chunk an upload has just stored, as the schema checks it. */
  function RecordedByText(l: Lib, root: string, c: Catalog, e: Id, u: Upload): Option<Catalog>
    requires u.at.Stored?
  {
    InsertByText(root, c, u.snap, |u.parts|, ChunkRowOf(l, e, u.req, u.parts + [u.at.data], |u.parts|))
  }

  /** In no run does the schema reject the row of a chunk that was just stored, its keys compared as strings. */
  lemma RowsAcceptedByText(l: Lib, root: string, steps: seq<Step>, e: Id)
    requires IsRun(l, INITIAL, steps)
    requires e in After(l, INITIAL, steps).live && After(l, INITIAL, steps).live[e].at.Stored?
    ensures var w := After(l, INITIAL, steps);
      && RecordedRows(l, w.cat, e, w.live[e]).Some?
      && RecordedByText(l, root, w.cat, e, w.live[e]) == RecordedRows(l, w.cat, e, w.live[e])
  {
    hide IsRun, After, Inv, RowsNamed, KeysNamed, Keys.Mirrors, InsertChunk, InsertByText, Keys.Accepted;
    InitialInv(l);
    InitialNames(root);
    RunMirrors(l, root, INITIAL, map[], steps);
    var w := After(l, INITIAL, steps);
    RowAccepted(l, w, e);
    InvLive(l, w);
    LiveNamed(l, w, e);
    InvCatalog(l, w);
    var u := w.live[e];
    TextUnique(root, w.cat, u.snap, |u.parts|, ChunkRowOf(l, e, u.req, u.parts + [u.at.data], |u.parts|));
  }

  lemma InvCatalog(l: Lib, w: World)
    requires Inv(l, w)
    ensures CatalogOk(w.cat) && CommittedOk(l, w)
  {
    hide CatalogOk, CommittedOk, LiveOk, WorkerOk, ModeOk, IssuedOk;
  }

  // ---- restoring from the string-keyed store ----

  /** The string-keyed store read at these keys. */
  function Seen(root: string, files: Blobs, keys: set<Key>): Objects {
    map k | k in keys && Text(root, k) in files :: files[Text(root, k)]
  }

  lemma SeenHolds(l: Lib, root: string, c: Catalog, store: Objects, files: Blobs, e: Id, u: Upload)
    requires Archived(l, c, store, e, u) && Keys.Mirrors(root, store, files)
    ensures var seen := Seen(root, files, ObjectKeys(c, {u.snap}));
      Holds(seen, u.req, u.parts) && HoldsManifest(l, seen, u.req, u.parts)
  {
    hide WellFormed, ManifestOf, Keys.Accepted, Keys.Render, Keys.ByteName, Concat;
    var keys := ObjectKeys(c, {u.snap});
    forall k | k in store && k in keys ensures k in Seen(root, files, keys) && Seen(root, files, keys)[k] == store[k] {
    }
    forall i | 0 <= i < |u.parts| ensures ChunkKey(u.req.ds, u.req.name, i) in keys {
      assert (u.snap, i) in c.chunks && c.chunks[(u.snap, i)].key == ChunkKey(u.req.ds, u.req.name, i);
    }
    assert c.snapshots[u.snap].manifestKey == Some(ManifestKey(u.req.ds, u.req.name));
  }

  /** After every run, reading the objects of a committed snapshot by their string keys restores exactly the bytes
      its session wrote. */
  lemma CommittedFilesRestore(l: Lib, root: string, steps: seq<Step>, s: Id)
    requires Lawful(l) && IsRun(l, INITIAL, steps)
    requires var w := After(l, INITIAL, steps); s in w.cat.snapshots && w.cat.snapshots[s].status == Committed
    ensures var w := After(l, INITIAL, steps); var row := w.cat.snapshots[s];
      && s in w.sent && row.manifestKey.Some?
      && Restored(l, Seen(root, FilesAfter(l, root, INITIAL, map[], steps), ObjectKeys(w.cat, {s})), row.manifestKey.value)
         == Some(Concat(DataOf(steps, SessionFor(w, s))))
  {
    hide IsRun, After, FilesAfter, Inv, Keys.Mirrors, DataOf, Restored, Seen, CatalogOk, ObjectKeys, Holds, HoldsManifest;
    hide RowsWritten, Concat, ManifestOf;
    CommittedSnapshotsRestore(l, steps, s);
    FilesFollow(l, root, steps);
    InitialInv(l);
    RunKeeps(l, INITIAL, steps);
    var w := After(l, INITIAL, steps);
    InvCatalog(l, w);
    var e, u := w.sent[s].0, w.sent[s].1;
    assert Archived(l, w.cat, w.store, e, u);
    HeldStreamRestores(l, w.store, u.req, u.parts);
    var files := FilesAfter(l, root, INITIAL, map[], steps);
    SeenHolds(l, root, w.cat, w.store, files, e, u);
    HeldStreamRestores(l, Seen(root, files, ObjectKeys(w.cat, {s})), u.req, u.parts);
  }
}
