/** The calls of an upload handler as steps of the machine. */
module IngestSteps {
  import opened Base
  import opened Manifests
  import opened Catalogs
  import opened Lineage
  import opened Streams
  import opened Machine
  import opened Invariant
  import opened SafetyStart
  import opened Theorems

  /** The steps lead from one world to the other, which keeps the invariant. */
  ghost predicate Runs(l: Lib, w0: World, steps: seq<Step>, w: World) {
    IsRun(l, w0, steps) && After(l, w0, steps) == w && Inv(l, w)
  }

  /** The steps of one handler: its upload starts once, first. */
  ghost predicate OneStart(steps: seq<Step>, t: Start) {
    steps != [] && steps[0] == StartUpload(t) && forall i :: 0 < i < |steps| ==> !steps[i].StartUpload?
  }

  lemma Took(l: Lib, w0: World, steps: seq<Step>, w: World, step: Step)
    requires Runs(l, w0, steps, w) && Enabled(l, w, step)
    ensures Runs(l, w0, steps + [step], Apply(l, w, step))
  {
    hide Inv, IsRun, After, Enabled, Apply;
    RunSnoc(l, w0, steps, step);
    StepKeeps(l, w, step);
  }

  lemma TookStart(l: Lib, w0: World, steps: seq<Step>, w: World, t: Start)
    requires Runs(l, w0, steps, w) && w.mode == Serving && CanStart(w, t)
    ensures Runs(l, w0, steps + [StartUpload(t)], Started(w, t))
  {
    hide Runs, CanStart, Started;
    Took(l, w0, steps, w, StartUpload(t));
  }

  lemma TookPut(l: Lib, w0: World, steps: seq<Step>, w: World, e: Id, data: Bytes)
    requires Runs(l, w0, steps, w) && w.mode == Serving && CanPutChunk(w, e, data)
    ensures Runs(l, w0, steps + [PutChunk(e, data)], ChunkPut(w, e, data))
  {
    hide Runs, ChunkPut, CanPutChunk;
    Took(l, w0, steps, w, PutChunk(e, data));
  }

  lemma TookRecord(l: Lib, w0: World, steps: seq<Step>, w: World, e: Id)
    requires Runs(l, w0, steps, w) && w.mode == Serving && CanRecordChunk(l, w, e)
    ensures Runs(l, w0, steps + [RecordChunk(e)], ChunkRecorded(l, w, e))
  {
    hide Runs, ChunkRecorded, CanRecordChunk;
    Took(l, w0, steps, w, RecordChunk(e));
  }

  lemma TookProgress(l: Lib, w0: World, steps: seq<Step>, w: World, e: Id)
    requires Runs(l, w0, steps, w) && w.mode == Serving && e in w.live && w.live[e].at.Recorded?
    ensures Runs(l, w0, steps + [Progress(e)], SessionMoved(w, e, WritingChunk, Reading))
  {
    hide Runs, SessionMoved;
    Took(l, w0, steps, w, Progress(e));
  }

  lemma TookEnd(l: Lib, w0: World, steps: seq<Step>, w: World, e: Id)
    requires Runs(l, w0, steps, w) && w.mode == Serving && e in w.live && w.live[e].at.Reading? && w.live[e].parts != []
    ensures Runs(l, w0, steps + [EndOfStream(e)], SessionMoved(w, e, CommittingManifest, Manifesting))
  {
    hide Runs, SessionMoved;
    Took(l, w0, steps, w, EndOfStream(e));
  }

  lemma TookManifest(l: Lib, w0: World, steps: seq<Step>, w: World, e: Id)
    requires Runs(l, w0, steps, w) && w.mode == Serving && CanPutManifest(l, w, e)
    ensures Runs(l, w0, steps + [PutManifest(e)], ManifestPut(l, w, e))
  {
    hide Runs, ManifestPut, WellFormed, ManifestOf;
    Took(l, w0, steps, w, PutManifest(e));
  }

  lemma TookKey(l: Lib, w0: World, steps: seq<Step>, w: World, e: Id)
    requires Runs(l, w0, steps, w) && w.mode == Serving && e in w.live && w.live[e].at.ManifestStored?
    ensures Runs(l, w0, steps + [SetManifestKey(e)], ManifestKeySet(w, e))
  {
    hide Runs, ManifestKeySet;
    Took(l, w0, steps, w, SetManifestKey(e));
  }

  lemma TookCommit(l: Lib, w0: World, steps: seq<Step>, w: World, e: Id)
    requires Runs(l, w0, steps, w) && w.mode == Serving && e in w.live && w.live[e].at.Ready?
    ensures Runs(l, w0, steps + [Commit(e)], UploadCommitted(l, w, e))
  {
    hide Runs, UploadCommitted;
    Took(l, w0, steps, w, Commit(e));
  }

  lemma TookFail(l: Lib, w0: World, steps: seq<Step>, w: World, e: Id)
    requires Runs(l, w0, steps, w) && w.mode == Serving && e in w.live
    ensures Runs(l, w0, steps + [Fail(e)], UploadFailed(w, e))
    ensures Runs(l, w0, steps + [Abandon(e)], w.(live := w.live - {e}))
  {
    hide Runs, UploadFailed;
    Took(l, w0, steps, w, Fail(e));
    Took(l, w0, steps, w, Abandon(e));
  }

  /** What the invariant says of an upload that has just committed. */
  lemma CommittedArchived(l: Lib, w0: World, steps: seq<Step>, w: World, s: Id)
    requires Runs(l, w0, steps, w) && s in w.cat.snapshots && w.cat.snapshots[s].status == Committed
    ensures s in w.sent && Archived(l, w.cat, w.store, w.sent[s].0, w.sent[s].1)
  {
    hide IsRun, After, CatalogOk, LiveOk, WorkerOk, ModeOk, IssuedOk, Archived;
  }

  lemma LiveRow(l: Lib, w0: World, steps: seq<Step>, w: World, e: Id)
    requires Runs(l, w0, steps, w) && e in w.live
    ensures LiveUpload(l, w.cat, w.store, e, w.live[e])
  {
    hide IsRun, After, CatalogOk, CommittedOk, WorkerOk, ModeOk, IssuedOk, LiveUpload;
  }

  lemma RunAccepted(l: Lib, w0: World, steps: seq<Step>, w: World, e: Id)
    requires Runs(l, w0, steps, w) && e in w.live && w.live[e].at.Stored?
    ensures RecordedRows(l, w.cat, e, w.live[e]).Some?
  {
    hide Inv, IsRun, After, RecordedRows;
    RowAccepted(l, w, e);
  }
}
