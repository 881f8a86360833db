/** Names with dot components. The server's check lets them through (internal/sshserver/command.go), and one of them
    is enough to destroy a stored snapshot, because path.Join drops what made the keys different. */
module Aliases {
  import opened Base
  import opened Manifests
  import opened Catalogs
  import opened Lineage
  import opened Streams
  import opened Machine
  import opened Invariant
  import opened SafetyStart
  import opened IngestSteps
  import opened Theorems
  import opened AutoReceive
  import opened Files
  import opened Witness
  import Keys

  // ---- runs under every name the server accepts ----

  /** As Enabled, but an upload may start under any name validateName and validateDataset accept. */
  ghost predicate Accepts(l: Lib, w: World, step: Step) {
    if step.StartUpload? then
      && w.mode == Serving && Admits(w.cat, w.issued, step.start) && !DeletingIn(w, step.start.d)
      && Keys.ValidNames(step.start.req.ds, step.start.req.name)
    else Enabled(l, w, step)
  }

  ghost function Effect(l: Lib, w: World, step: Step): World
    requires Accepts(l, w, step)
  {
    if step.StartUpload? then Started(w, step.start) else Apply(l, w, step)
  }

  ghost predicate IsServerRun(l: Lib, w: World, steps: seq<Step>)
    decreases |steps|
  {
    steps == [] || (Accepts(l, w, steps[0]) && IsServerRun(l, Effect(l, w, steps[0]), steps[1..]))
  }

  /** The world and the string-keyed store after such a run. */
  ghost function ServerAfter(l: Lib, root: string, w: World, files: Blobs, steps: seq<Step>): (World, Blobs)
    requires IsServerRun(l, w, steps)
    decreases |steps|
  {
    if steps == [] then (w, files)
    else ServerAfter(l, root, Effect(l, w, steps[0]), FileStep(l, root, w, files, steps[0]), steps[1..])
  }

  ghost predicate SafeStarts(steps: seq<Step>) {
    forall i :: 0 <= i < |steps| && steps[i].StartUpload? ==> SafeNames(steps[i].start.req)
  }

  lemma SafeStep(l: Lib, w: World, step: Step)
    ensures Enabled(l, w, step) <==> Accepts(l, w, step) && (step.StartUpload? ==> SafeNames(step.start.req))
    ensures Enabled(l, w, step) ==> Effect(l, w, step) == Apply(l, w, step)
  {
    hide Admits, Keys.ValidNames, Keys.DotFree, Started;
    if !step.StartUpload? {
      hide Enabled, Apply;
    }
  }

  /** The machine's runs are exactly the server's runs without dot components. */
  lemma {:induction false} SafeRuns(l: Lib, root: string, w: World, files: Blobs, steps: seq<Step>)
    ensures IsRun(l, w, steps) <==> IsServerRun(l, w, steps) && SafeStarts(steps)
    ensures IsRun(l, w, steps) ==>
      ServerAfter(l, root, w, files, steps) == (After(l, w, steps), FilesAfter(l, root, w, files, steps))
    decreases |steps|
  {
    hide Enabled, Apply, Accepts, Effect, FileStep, SafeNames;
    if steps != [] {
      SafeStep(l, w, steps[0]);
      assert SafeStarts(steps) <==> (steps[0].StartUpload? ==> SafeNames(steps[0].start.req)) && SafeStarts(steps[1..]) by {
        if SafeStarts(steps[1..]) {
          assert forall i :: 0 < i < |steps| ==> steps[i] == steps[1..][i - 1];
        }
      }
      if Enabled(l, w, steps[0]) {
        SafeRuns(l, root, Apply(l, w, steps[0]), FileStep(l, root, w, files, steps[0]), steps[1..]);
      }
    }
  }

  lemma {:induction false} ServerSnoc(l: Lib, root: string, w: World, files: Blobs, steps: seq<Step>, step: Step)
    requires IsServerRun(l, w, steps) && Accepts(l, ServerAfter(l, root, w, files, steps).0, step)
    ensures IsServerRun(l, w, steps + [step])
    ensures var end := ServerAfter(l, root, w, files, steps);
      ServerAfter(l, root, w, files, steps + [step]) == (Effect(l, end.0, step), FileStep(l, root, end.0, end.1, step))
    decreases |steps|
  {
    hide Accepts, Effect, FileStep;
    if steps == [] {
      assert steps + [step] == [step] && [step][1..] == [];
    } else {
      ServerSnoc(l, root, Effect(l, w, steps[0]), FileStep(l, root, w, files, steps[0]), steps[1..], step);
      assert (steps + [step])[1..] == steps[1..] + [step];
    }
  }

  // ---- the alias of a stored dataset ----

  function AliasStart(req: Request): Start {
    Start(4, req.(ds := Keys.Alias(req.ds)), None, None, 5, 6, 7, 0)
  }

  lemma AliasAdmitted(w: World, req: Request)
    requires OneStored(w, req) && req.base == "" && SafeNames(req)
    ensures Admits(w.cat, w.issued, AliasStart(req)) && !DeletingIn(w, 4)
    ensures Keys.ValidNames(Keys.Alias(req.ds), req.name) && Keys.Alias(req.ds) != req.ds
  {
    hide Keys.ValidNames, Keys.DotFree;
    Keys.AliasValid(req.ds, req.name);
    assert |Keys.Alias(req.ds).path| != |req.ds.path|;
  }

  lemma AliasText(root: string, ds: DatasetName, name: string)
    requires Keys.Accepted(ds, name)
    ensures Text(root, ChunkKey(Keys.Alias(ds), name, 0)) == Text(root, ChunkKey(ds, name, 0))
    ensures Text(root, ManifestKey(ds, name)) != Text(root, ChunkKey(ds, name, 0))
  {
    hide Keys.ValidNames, Keys.DotFree, Keys.Render, Keys.ByteName;
    Keys.DotAlias(root, ds, name, 0);
    TextApart(root, ManifestKey(ds, name), ChunkKey(ds, name, 0));
  }

  /** The bytes read for chunk 0 are not those the manifest describes. */
  lemma WrongChunk(l: Lib, seen: Objects, req: Request, data: Bytes, other: Bytes)
    requires Lawful(l) && HoldsManifest(l, seen, req, [data])
    requires ChunkKey(req.ds, req.name, 0) in seen && seen[ChunkKey(req.ds, req.name, 0)] == other
    requires |other| != |data| || l.sha(other) != l.sha(data)
    ensures Restored(l, seen, ManifestKey(req.ds, req.name)) == None
  {
    hide WellFormed, Concat;
    var chunks := ManifestOf(l, req, [data]).chunks;
    assert |chunks| == 1 && chunks[0].size == |data| && chunks[0].sha == l.sha(data);
    assert ReadChunk(l, seen, chunks[0]) == None;
    assert ReadChunks(l, seen, chunks) == None;
  }

  lemma OverwrittenManifest(l: Lib, root: string, c: Catalog, store: Objects, files: Blobs, e: Id, u: Upload,
                            text: string, other: Bytes)
    requires Archived(l, c, store, e, u) && Keys.Mirrors(root, store, files) && u.parts != []
    requires text == Text(root, ChunkKey(u.req.ds, u.req.name, 0)) != Text(root, ManifestKey(u.req.ds, u.req.name))
    ensures var seen := Seen(root, files[text := other], ObjectKeys(c, {u.snap}));
      && HoldsManifest(l, seen, u.req, u.parts)
      && ChunkKey(u.req.ds, u.req.name, 0) in seen && seen[ChunkKey(u.req.ds, u.req.name, 0)] == other
  {
    hide WellFormed, ManifestOf, Keys.Accepted, Text, Concat, Keys.Mirrors;
    SeenHolds(l, root, c, store, files, e, u);
    assert (u.snap, 0) in c.chunks && c.chunks[(u.snap, 0)].key == ChunkKey(u.req.ds, u.req.name, 0);
    assert ChunkKey(u.req.ds, u.req.name, 0) in ObjectKeys(c, {u.snap});
  }

  lemma StartBeside(w: World, t: Start, s: Id)
    requires t.previous == None && s in w.cat.snapshots && s != t.snap
    ensures var c := Started(w, t).cat;
      && s in c.snapshots && c.snapshots[s] == w.cat.snapshots[s] && c.chunks == w.cat.chunks
      && ObjectKeys(c, {s}) == ObjectKeys(w.cat, {s})
  {
    var c := Started(w, t).cat;
    assert c.chunks == w.cat.chunks && c.snapshots[s] == w.cat.snapshots[s];
    assert ManifestKeys(c, {s}) == ManifestKeys(w.cat, {s});
  }

  lemma AliasSteps(l: Lib, w: World, req: Request, other: Bytes)
    requires OneStored(w, req) && req.base == "" && SafeNames(req) && other != []
    ensures var t := AliasStart(req); var w1 := Started(w, t);
      && Accepts(l, w, StartUpload(t)) && Effect(l, w, StartUpload(t)) == w1
      && Accepts(l, w1, PutChunk(6, other)) && Effect(l, w1, PutChunk(6, other)) == ChunkPut(w1, 6, other)
      && 6 in w1.live && w1.live[6] == Upload(4, 5, 7, t.req, [], Reading)
  {
    hide Keys.ValidNames, Keys.DotFree, StartRows, Admits;
    AliasAdmitted(w, req);
  }

  /** The row of the alias's chunk names, as a string, the object another row already names. */
  lemma AliasRowRejected(l: Lib, root: string, c: Catalog, u: Upload, e: Id, req: Request)
    requires u.at.Stored? && u.parts == [] && u.req == AliasStart(req).req && Keys.Accepted(req.ds, req.name)
    requires (1, 0) in c.chunks && c.chunks[(1, 0)].key == ChunkKey(req.ds, req.name, 0)
    ensures RecordedByText(l, root, c, e, u) == None
  {
    hide Keys.Accepted, Text, Concat;
    AliasText(root, req.ds, req.name);
    assert ChunkRowOf(l, e, u.req, u.parts + [u.at.data], 0).key == ChunkKey(Keys.Alias(req.ds), req.name, 0);
    assert Text(root, c.chunks[(1, 0)].key) == Text(root, ChunkKey(Keys.Alias(req.ds), req.name, 0));
  }

  lemma ArchivedRow(l: Lib, c: Catalog, store: Objects, e: Id, u: Upload, data: Bytes)
    requires Archived(l, c, store, e, u) && u.parts == [data]
    ensures (u.snap, 0) in c.chunks && c.chunks[(u.snap, 0)].key == ChunkKey(u.req.ds, u.req.name, 0)
  {
    hide RowMatches, Holds, HoldsManifest, Concat;
    assert (u.snap, 0) in c.chunks;
  }

  /** One snapshot is stored and restores. Then an upload starts under its dataset's alias, which the server accepts,
      and puts its first chunk. The catalog still calls the snapshot committed, under the same keys; it does not
      restore any more; and the schema turns the new chunk's row down. */
  lemma AliasDestroys(l: Lib, root: string, req: Request, data: Bytes, other: Bytes)
    returns (first: seq<Step>, steps: seq<Step>)
    requires Lawful(l) && req.base == "" && SafeNames(req) && data != [] && other != []
    requires |other| != |data| || l.sha(other) != l.sha(data)
    ensures steps == first + [StartUpload(AliasStart(req))] + [PutChunk(6, other)]
    ensures IsServerRun(l, INITIAL, first) && IsServerRun(l, INITIAL, steps)
    ensures var found, now := ServerAfter(l, root, INITIAL, map[], first), ServerAfter(l, root, INITIAL, map[], steps);
      var keys, key := ObjectKeys(found.0.cat, {1}), ManifestKey(req.ds, req.name);
      && 1 in found.0.cat.snapshots && found.0.cat.snapshots[1].status == Committed
      && 1 in now.0.cat.snapshots && now.0.cat.snapshots[1] == found.0.cat.snapshots[1]
      && ObjectKeys(now.0.cat, {1}) == keys
      && Restored(l, Seen(root, found.1, keys), key) == Some(data)
      && Restored(l, Seen(root, now.1, keys), key) == None
      && 6 in now.0.live && now.0.live[6].at.Stored?
      && RecordedByText(l, root, now.0.cat, 6, now.0.live[6]) == None
  {
    hide IsRun, After, FilesAfter, Runs, Inv, IsServerRun, ServerAfter, Accepts, Effect, Started, Keys.Mirrors, Seen;
    hide Restored, ObjectKeys, Archived, RecordedByText, SafeStarts, Text, Keys.Accepted, HoldsManifest;
    var w;
    first, w := FirstStored(l, req, data);
    RunsAre(l, INITIAL, first, w);
    SafeRuns(l, root, INITIAL, map[], first);
    FilesFollow(l, root, first);
    var files := FilesAfter(l, root, INITIAL, map[], first);
    CommittedArchived(l, INITIAL, first, w, 1);
    var u := w.sent[1].1;
    ArchivedRestores(l, root, w.cat, w.store, files, 2, u, data);
    var t := AliasStart(req);
    var w1 := Started(w, t);
    AliasSteps(l, w, req, other);
    ServerSnoc(l, root, INITIAL, map[], first, StartUpload(t));
    ServerSnoc(l, root, INITIAL, map[], first + [StartUpload(t)], PutChunk(6, other));
    steps := first + [StartUpload(t)] + [PutChunk(6, other)];
    StartBeside(w, t, 1);
    AliasText(root, req.ds, req.name);
    var text := Text(root, ChunkKey(req.ds, req.name, 0));
    OverwrittenManifest(l, root, w.cat, w.store, files, 2, u, text, other);
    WrongChunk(l, Seen(root, files[text := other], ObjectKeys(w.cat, {1})), req, data, other);
    ArchivedRow(l, w.cat, w.store, 2, u, data);
    AliasRowRejected(l, root, w1.cat, ChunkPut(w1, 6, other).live[6], 6, req);
  }

  lemma ArchivedRestores(l: Lib, root: string, c: Catalog, store: Objects, files: Blobs, e: Id, u: Upload, data: Bytes)
    requires Lawful(l) && Archived(l, c, store, e, u) && Keys.Mirrors(root, store, files) && u.parts == [data]
    ensures Restored(l, Seen(root, files, ObjectKeys(c, {u.snap})), ManifestKey(u.req.ds, u.req.name)) == Some(data)
  {
    hide Archived, Keys.Mirrors, Seen, ObjectKeys, Restored, Holds, HoldsManifest;
    SeenHolds(l, root, c, store, files, e, u);
    HeldStreamRestores(l, Seen(root, files, ObjectKeys(c, {u.snap})), u.req, u.parts);
    OnePart(data);
  }
}
