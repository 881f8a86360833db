/** Receiving a stream (internal/ingest/service.go): chunks, manifest, commit, and the failure path. Every call the
    handler makes is a step of the machine, so Receive inherits the machine's invariant and everything proved of it. */
module Ingest {
  import opened Base
  import opened Manifests
  import opened Catalogs
  import opened Lineage
  import opened Streams
  import opened Machine
  import opened Invariant
  import opened Storage
  import opened Envelopes
  import opened Retry
  import opened Puts
  import opened Readers
  import opened Repositories
  import opened IngestSteps

  const DEFAULT_CHUNK_SIZE := 64 * 1024 * 1024

  datatype Receipt = Receipt(manifestKey: Key, sha: string, bytes: nat, chunks: seq<Chunk>)

  /** The weather of each put, and whether the client has gone away by the time each chunk has been read. */
  datatype Luck = Luck(weather: nat -> Weather, gone: nat -> bool)

  ghost predicate FairLuck(luck: Luck) {
    forall n :: Fair(luck.weather(n))
  }

  class Service {
    const repo: Repository
    const store: EncryptedStore
    const chunkSize: int
    const maxElapsed: int
    const initialBackoff: int

    constructor (repo: Repository, store: EncryptedStore, chunkSize: int, maxElapsed: int, initialBackoff: int)
      ensures this.repo == repo && this.store == store && this.chunkSize == chunkSize
      ensures this.maxElapsed == maxElapsed && this.initialBackoff == initialBackoff
    {
      this.repo, this.store, this.chunkSize := repo, store, chunkSize;
      this.maxElapsed, this.initialBackoff := maxElapsed, initialBackoff;
    }

    /** The repository and the store are the catalog and the objects of the world. */
    ghost predicate Tied(w: World)
      reads repo, store, store.base
    {
      w.cat == repo.cat && w.issued == repo.issued && w.store == store.View() && w.mode == Serving && store.Valid()
    }

    ghost predicate Handling(l: Lib, w0: World, steps: seq<Step>, w: World, t: Start, parts: seq<Bytes>, at: UploadAt)
      reads repo, store, store.base
    {
      && Runs(l, w0, steps, w) && Tied(w) && OneStart(steps, t)
      && t.sess in w.live && w.live[t.sess] == Upload(t.d, t.snap, t.op, t.req, parts, at)
    }

    /** The handler still owns its upload, at whatever point. */
    ghost predicate InFlight(l: Lib, w0: World, steps: seq<Step>, w: World, t: Start)
      reads repo, store, store.base
    {
      exists parts, at :: Handling(l, w0, steps, w, t, parts, at)
    }

    lemma StillOwned(l: Lib, w0: World, steps: seq<Step>, w: World, t: Start, parts: seq<Bytes>, at: UploadAt)
      requires Handling(l, w0, steps, w, t, parts, at)
      ensures InFlight(l, w0, steps, w, t)
    {
      hide Handling;
    }

    /** What decides whether this service's puts land. */
    ghost function Backend(): Remote {
      Remote(store.base.plan, Effective(maxElapsed, DEFAULT_ELAPSED), Effective(initialBackoff, DEFAULT_BACKOFF))
    }

    /** The configured chunk size, or 64 MiB. */
    ghost function ChunkBytes(): nat {
      if chunkSize <= 0 then 64 * 1024 * 1024 else chunkSize
    }

    /** The puts of a stream: its chunks and the manifest. */
    ghost function PutsFor(bytes: nat): nat {
      Pieces(bytes, ChunkBytes()) + 1
    }

    /** The whole stream arrives: the reader ends without an error of its own, and the client is still there when the
        last read, the one that finds the end, returns. */
    ghost predicate Arrives(r: Reader, luck: Luck, bytes: nat) {
      !r.breaks && !luck.gone(LastRead(bytes, ChunkBytes()))
    }

    /** The database fails no statement. */
    ghost predicate Unbroken() {
      forall n :: !repo.broken(n)
    }

    /** One put with its retries: it lands, or it never does. */
    method Put(l: Lib, key: Key, data: Bytes, weather: Weather) returns (info: Option<ObjectInfo>)
      requires store.Valid() && Fair(weather)
      modifies store`keyCache, store.base
      ensures store.Valid()
      ensures info.Some? ==> info.value == ObjectInfo(|data|, l.sha(data)) && store.View() == old(store.View())[key := data]
      ensures info.None? ==> store.View() == old(store.View()) || store.View() == old(store.View())[key := data]
      ensures info.Some? ==>
        store.base.calls >= old(store.base.calls)
        && Lands(Backend(), old(store.base.calls), weather, store.base.calls - old(store.base.calls))
      ensures info.None? ==> NeverLands(Backend(), old(store.base.calls), weather)
    {
      hide Shows, Sound, CacheTrue, Attempts, SleepsOk, Tries, GivesUp, NeverLands;
      var attempts;
      ghost var sleeps;
      info, attempts, sleeps := PutBytesWithRetry(l, store, key, data, maxElapsed, initialBackoff, weather);
      if info.None? {
        GaveUp(Backend(), old(store.base.calls), weather, attempts);
      }
    }

    /** One round of the chunk loop: put, check what came back, record the row, report progress. */
    method StoreChunk(l: Lib, t: Start, chunks: seq<Chunk>, offset: nat, data: Bytes, weather: Weather,
                      ghost w0: World, ghost before: seq<Step>, ghost given: World, ghost parts: seq<Bytes>)
      returns (chunk: Option<Chunk>, ghost steps: seq<Step>, ghost w: World)
      requires Handling(l, w0, before, given, t, parts, Reading) && data != [] && Fair(weather)
      requires chunks == ChunksOf(l, t.req, parts) && offset == |Concat(parts)|
      modifies repo`cat, repo`calls, store`keyCache, store.base
      ensures InFlight(l, w0, steps, w, t)
      ensures chunk.Some? ==>
        && Handling(l, w0, steps, w, t, parts + [data], Reading)
        && chunks + [chunk.value] == ChunksOf(l, t.req, parts + [data])
      ensures chunk.Some? ==>
        store.base.calls >= old(store.base.calls)
        && Lands(Backend(), old(store.base.calls), weather, store.base.calls - old(store.base.calls))
      ensures Unbroken() && chunk.None? ==> NeverLands(Backend(), old(store.base.calls), weather)
    {
      hide Runs, Shows, Sound, CacheTrue, ChunksOf, Fair, InsertChunk, SetSessionStatus, Concat;
      hide Lands, NeverLands;
      var e := t.sess;
      var key := ChunkKey(t.req.ds, t.req.name, |chunks|);
      steps, w := before, given;
      assert |chunks| == |parts| by { ChunkCount(l, t.req, parts); }
      var info := Put(l, key, data, weather);
      if store.View() != given.store {
        TookPut(l, w0, before, given, e, data);
        steps, w := before + [PutChunk(e, data)], ChunkPut(given, e, data);
      }
      if info.None? || info.value.size != |data| || info.value.sha != l.sha(data) {
        assert Handling(l, w0, steps, w, t, parts, w.live[e].at);
        return None, steps, w;
      }
      TookPut(l, w0, before, given, e, data);
      steps, w := before + [PutChunk(e, data)], ChunkPut(given, e, data);
      assert Handling(l, w0, steps, w, t, parts, Stored(data));
      var found := Chunk(|chunks|, key, |data|, offset, offset + |data|, l.sha(data));
      assert found == ChunkOf(l, t.req, parts + [data], |parts|) by { assert (parts + [data])[..|parts|] == parts; }
      ChunksSnoc(l, t.req, parts, data);
      var ok;
      ok, steps, w := RecordChunk(l, t, found, w0, steps, w, parts, data);
      return if ok then Some(found) else None, steps, w;
    }

    method RecordChunk(l: Lib, t: Start, chunk: Chunk,
                       ghost w0: World, ghost before: seq<Step>, ghost given: World,
                       ghost parts: seq<Bytes>, ghost data: Bytes)
      returns (ok: bool, ghost steps: seq<Step>, ghost w: World)
      requires Handling(l, w0, before, given, t, parts, Stored(data)) && chunk == ChunkOf(l, t.req, parts + [data], |parts|)
      modifies repo`cat, repo`calls
      ensures InFlight(l, w0, steps, w, t)
      ensures ok ==> Handling(l, w0, steps, w, t, parts + [data], Reading)
      ensures Unbroken() ==> ok
    {
      hide Runs, Shows, Sound, CacheTrue, InsertChunk, SetSessionStatus, Concat;
      var e := t.sess;
      steps, w := before, given;
      var row := ChunkRow(e, chunk.key, chunk.size, chunk.start, chunk.end, chunk.sha);
      ok := repo.AddVerifiedChunk(t.snap, chunk.index, row);
      RunAccepted(l, w0, steps, w, e);
      if !ok {
        assert Handling(l, w0, steps, w, t, parts, Stored(data));
        return;
      }
      TookRecord(l, w0, steps, w, e);
      steps, w := steps + [Step.RecordChunk(e)], ChunkRecorded(l, w, e);
      assert Handling(l, w0, steps, w, t, parts + [data], Recorded);
      ok := repo.UpdateUploadStatus(e, WritingChunk);
      if !ok {
        assert Handling(l, w0, steps, w, t, parts + [data], Recorded);
        return;
      }
      TookProgress(l, w0, steps, w, e);
      steps, w := steps + [Progress(e)], SessionMoved(w, e, WritingChunk, Reading);
      assert Handling(l, w0, steps, w, t, parts + [data], Reading);
    }

    /** The chunk loop: it cuts the stream every size bytes however the reader delivers it. */
    method ReadStream(l: Lib, t: Start, r: Reader, size: nat, luck: Luck,
                      ghost w0: World, ghost before: seq<Step>, ghost given: World)
      returns (ok: bool, chunks: seq<Chunk>, offset: nat, hashed: Bytes,
               ghost steps: seq<Step>, ghost w: World, ghost parts: seq<Bytes>)
      requires Handling(l, w0, before, given, t, [], Reading) && size > 0 && FairLuck(luck)
      modifies repo`cat, repo`calls, store`keyCache, store.base, r
      ensures InFlight(l, w0, steps, w, t)
      ensures ok ==>
        && Handling(l, w0, steps, w, t, parts, Reading) && chunks == ChunksOf(l, t.req, parts)
        && Concat(parts) == old(r.Rest()) == hashed && offset == |hashed|
        && CutEvery(parts, size) && |parts| == Pieces(|hashed|, size)
        && Landed(Backend(), old(store.base.calls), luck.weather, |parts|, store.base.calls)
        && !r.breaks && !luck.gone(LastRead(|hashed|, size))
      ensures Unbroken() && !ok ==>
        || r.breaks || luck.gone(LastRead(|old(r.Rest())|, size))
        || !AllLand(Backend(), old(store.base.calls), luck.weather, Pieces(|old(r.Rest())|, size))
    {
      hide Runs, OneStart, Shows, Sound, CacheTrue, ChunksOf, Concat, Fair, Lands, NeverLands;
      hide Handling, InFlight, CutEvery, Pieces, LastRead, Landed, AllLand;
      steps, w, parts := before, given, [];
      chunks, offset, hashed := [], 0, [];
      assert chunks == ChunksOf(l, t.req, []) && Concat([]) == [] by { NoChunks(l, t.req); }
      StillOwned(l, w0, steps, w, t, parts, Reading);
      ghost var o, first := Backend(), store.base.calls;
      NonePut(o, first, luck.weather);
      ghost var all := r.Rest();
      while true
        invariant Handling(l, w0, steps, w, t, parts, Reading) && chunks == ChunksOf(l, t.req, parts)
        invariant hashed == Concat(parts) && offset == |hashed| && hashed + r.Rest() == all
        invariant forall i :: 0 <= i < |parts| ==> |parts[i]| == size
        invariant Landed(o, first, luck.weather, |parts|, store.base.calls)
        decreases |r.Rest()|
      {
        var index := |chunks|;
        assert index == |parts| by { ChunkCount(l, t.req, parts); }
        ghost var calls := store.base.calls;
        var data, status := ReadFull(r, size);
        StillOwned(l, w0, steps, w, t, parts, Reading);
        PartsRead(parts, size, |data|);
        if status == Cut || ((status == Empty || status == Partial) && luck.gone(index)) {
          ok := false;
          return;
        }
        if data == [] {
          assert hashed + [] == hashed;
          AllCut(parts, size);
          ok := true;
          return;
        }
        var chunk;
        chunk, steps, w := StoreChunk(l, t, chunks, offset, data, luck.weather(index), w0, steps, w, parts);
        if chunk.None? {
          PartsRead(parts, size, |all| - |hashed|);
          if NeverLands(o, calls, luck.weather(index)) {
            StopsAt(o, first, luck.weather, |parts|, calls, Pieces(|all|, size));
          }
          ok := false;
          return;
        }
        LandsNext(o, first, luck.weather, |parts|, calls, store.base.calls - calls);
        LastCut(parts, data, size);
        StillOwned(l, w0, steps, w, t, parts + [data], Reading);
        ConcatSnoc(parts, data);
        assert hashed + (data + r.Rest()) == (hashed + data) + r.Rest();
        chunks, offset, hashed := chunks + [chunk.value], offset + |data|, hashed + data;
        parts := parts + [data];
        if status == Partial {
          assert hashed + [] == hashed;
          ok := true;
          return;
        }
      }
    }

    /** The manifest is written and its key noted; the upload is ready to be committed. */
    method StoreManifest(l: Lib, t: Start, mani: Manifest, weather: Weather,
                         ghost w0: World, ghost before: seq<Step>, ghost given: World, ghost parts: seq<Bytes>)
      returns (ok: bool, ghost steps: seq<Step>, ghost w: World)
      requires Handling(l, w0, before, given, t, parts, Manifesting) && Fair(weather)
      requires mani == ManifestOf(l, t.req, parts)
      modifies repo`cat, repo`calls, store`keyCache, store.base
      ensures InFlight(l, w0, steps, w, t)
      ensures ok ==> Handling(l, w0, steps, w, t, parts, Ready) && WellFormed(mani)
      ensures Unbroken() && WellFormed(mani) ==> (ok <==> !NeverLands(Backend(), old(store.base.calls), weather))
    {
      hide Runs, Shows, Sound, CacheTrue, Concat, Fair, WellFormed, ManifestOf, SetSessionManifestKey, Lands;
      var e := t.sess;
      steps, w := before, given;
      ok := Validate(mani);
      if !ok {
        assert Handling(l, w0, steps, w, t, parts, Manifesting);
        return;
      }
      var body := l.marshal(mani);
      var key := ManifestKey(t.req.ds, t.req.name);
      var info := Put(l, key, body, weather);
      if store.View() != given.store {
        TookManifest(l, w0, before, given, e);
        steps, w := before + [PutManifest(e)], ManifestPut(l, given, e);
      }
      if info.None? || info.value.size != |body| {
        assert Handling(l, w0, steps, w, t, parts, w.live[e].at);
        return false, steps, w;
      }
      TookManifest(l, w0, before, given, e);
      steps, w := before + [PutManifest(e)], ManifestPut(l, given, e);
      assert Handling(l, w0, steps, w, t, parts, ManifestStored);
      ok := repo.SetUploadManifestObjectKey(e, key);
      if !ok {
        assert Handling(l, w0, steps, w, t, parts, ManifestStored);
        return;
      }
      TookKey(l, w0, steps, w, e);
      steps, w := steps + [SetManifestKey(e)], ManifestKeySet(w, e);
      assert Handling(l, w0, steps, w, t, parts, Ready);
    }

    /** From the last chunk to the committed row. */
    method CommitStream(l: Lib, t: Start, chunks: seq<Chunk>, offset: nat, hashed: Bytes, weather: Weather,
                        ghost w0: World, ghost before: seq<Step>, ghost given: World, ghost parts: seq<Bytes>)
      returns (ok: bool, ghost steps: seq<Step>, ghost w: World)
      requires Handling(l, w0, before, given, t, parts, Reading) && parts != [] && Fair(weather)
      requires chunks == ChunksOf(l, t.req, parts) && hashed == Concat(parts) && offset == |hashed|
      modifies repo`cat, repo`calls, store`keyCache, store.base
      ensures !ok ==> InFlight(l, w0, steps, w, t)
      ensures ok ==>
        && Runs(l, w0, steps, w) && Tied(w) && OneStart(steps, t) && t.snap in w.sent
        && w.sent[t.snap] == (t.sess, Upload(t.d, t.snap, t.op, t.req, parts, Ready))
        && t.snap in w.cat.snapshots && w.cat.snapshots[t.snap].status == Committed && t.sess !in w.live
      ensures ok ==> WellFormed(ManifestOf(l, t.req, parts))
      ensures Unbroken() && WellFormed(ManifestOf(l, t.req, parts)) ==>
        (ok <==> !NeverLands(Backend(), old(store.base.calls), weather))
    {
      hide Runs, Shows, Sound, CacheTrue, Concat, Fair, WellFormed, ManifestOf, SetSessionStatus, ChunksOf, NeverLands;
      hide CommitStatements;
      var e := t.sess;
      steps, w := before, given;
      ok := repo.UpdateUploadStatus(e, CommittingManifest);
      if !ok {
        assert Handling(l, w0, steps, w, t, parts, Reading);
        return;
      }
      TookEnd(l, w0, steps, w, e);
      steps, w := steps + [EndOfStream(e)], SessionMoved(w, e, CommittingManifest, Manifesting);
      var streamSha := l.sha(hashed);
      var mani := New(t.req.ds, t.req.name, t.req.base,
                      Stream(t.req.raw, t.req.compressed, t.req.fromGuid, t.req.toGuid, offset, streamSha, t.req.chunkSize),
                      chunks);
      assert mani == ManifestOf(l, t.req, parts) by { ManifestIs(l, t.req, parts); }
      ok, steps, w := StoreManifest(l, t, mani, weather, w0, steps, w, parts);
      if !ok {
        return;
      }
      var key := ManifestKey(t.req.ds, t.req.name);
      ghost var u := w.live[e];
      assert |chunks| == |parts| by { ChunkCount(l, t.req, parts); }
      ok := repo.CommitUpload(t.snap, e, t.op, key, Facts(offset, streamSha, t.req.fromGuid, t.req.toGuid, |chunks|));
      if !ok {
        assert Handling(l, w0, steps, w, t, parts, Ready);
        return;
      }
      LiveSnap(l, w0, steps, w, e);
      CommitsSnapshot(l, w.cat, e, u);
      TookCommit(l, w0, steps, w, e);
      steps, w := steps + [Commit(e)], UploadCommitted(l, w, e);
    }

    /** The failure path: record it if the database lets us, otherwise leave the session to the reconciler. */
    method FailReceive(l: Lib, t: Start, ghost w0: World, ghost before: seq<Step>, ghost given: World)
      returns (ghost steps: seq<Step>, ghost w: World)
      requires InFlight(l, w0, before, given, t)
      modifies repo`cat, repo`calls
      ensures Runs(l, w0, steps, w) && Tied(w) && OneStart(steps, t) && t.sess !in w.live
      ensures t.snap in repo.cat.snapshots && repo.cat.snapshots[t.snap].status in {SnapshotStatus.Failed, Uploading}
      ensures Unbroken() ==> FailedIn(repo.cat, t)
    {
      hide Runs, Shows, Sound, CacheTrue, FailStatements, FailedIn;
      var e := t.sess;
      LiveStatus(l, w0, before, given, e);
      FailsRows(given.cat, t);
      TookFail(l, w0, before, given, e);
      var ok := repo.FailUpload(t.snap, e, t.op);
      if ok {
        steps, w := before + [Fail(e)], UploadFailed(given, e);
      } else {
        steps, w := before + [Abandon(e)], given.(live := given.live - {e});
      }
    }

    /** Receive once the upload has started. */
    method Transfer(l: Lib, t: Start, r: Reader, size: nat, luck: Luck,
                    ghost w0: World, ghost before: seq<Step>, ghost given: World)
      returns (res: Result<Receipt>, ghost steps: seq<Step>, ghost w: World)
      requires Handling(l, w0, before, given, t, [], Reading) && size > 0 && FairLuck(luck) && Lawful(l)
      requires t.req.chunkSize == size
      modifies repo`cat, repo`calls, store`keyCache, store.base, r
      ensures Runs(l, w0, steps, w) && Tied(w) && OneStart(steps, t)
      ensures res.Ok? ==> Received(l, repo.cat, store.View(), t, res.value, old(r.Rest()))
      ensures res.Err? ==>
        t.snap in repo.cat.snapshots && repo.cat.snapshots[t.snap].status in {SnapshotStatus.Failed, Uploading}
      ensures t.sess !in w.live && (res.Err? && Unbroken() ==> FailedIn(repo.cat, t))
      ensures res.Ok? ==> !r.breaks && !luck.gone(LastRead(|old(r.Rest())|, size))
      ensures Unbroken() ==>
        (res.Ok? <==>
           && old(r.Rest()) != [] && FullyNamed(t.req) && !r.breaks && !luck.gone(LastRead(|old(r.Rest())|, size))
           && AllLand(Backend(), old(store.base.calls), luck.weather, Pieces(|old(r.Rest())|, size) + 1))
    {
      hide Runs, OneStart, Shows, Sound, CacheTrue, ChunksOf, Concat, Fair, WellFormed, ManifestOf, Received;
      hide AllLand, Landed, NeverLands, Pieces, LastRead;
      ghost var o, first := Backend(), store.base.calls;
      var ok, chunks, offset, hashed;
      ghost var parts;
      ok, chunks, offset, hashed, steps, w, parts := ReadStream(l, t, r, size, luck, w0, before, given);
      if !ok {
        if AllLand(o, first, luck.weather, Pieces(|old(r.Rest())|, size) + 1) {
          FewerLand(o, first, luck.weather, Pieces(|old(r.Rest())|, size));
        }
        steps, w := FailReceive(l, t, w0, steps, w);
        return Err, steps, w;
      }
      OneMore(o, first, luck.weather, |parts|, store.base.calls);
      ChunkCount(l, t.req, parts);
      EmptyStream(parts);
      if chunks == [] {
        steps, w := FailReceive(l, t, w0, steps, w);
        return Err, steps, w;
      }
      NonEmptyStream(parts, size);
      ManifestComplete(l, w0, steps, w, t.sess);
      ok, steps, w := CommitStream(l, t, chunks, offset, hashed, luck.weather(|chunks|), w0, steps, w, parts);
      if !ok {
        steps, w := FailReceive(l, t, w0, steps, w);
        return Err, steps, w;
      }
      var receipt := Receipt(ManifestKey(t.req.ds, t.req.name), l.sha(hashed), offset, chunks);
      CommittedReceived(l, w0, steps, w, t, parts, receipt);
      return Ok(receipt), steps, w;
    }

    /** Receive. If it succeeds the whole stream can be restored from the store under the key it returns, with the
        hash and size it reports, and the catalog has the snapshot committed; if not, nothing new is committed. While
        the database fails no statement, it succeeds exactly for a non-empty stream that arrives whole, that startUpload
        accepts and all of whose puts land, at the first attempt or a later one. */
    method Receive(l: Lib, request: Request, depth: int, serviceDepth: int, r: Reader, luck: Luck, ghost w0: World)
      returns (res: Result<Receipt>, t: Option<Start>, ghost steps: seq<Step>, ghost w: World)
      requires Inv(l, w0) && Tied(w0) && Lawful(l) && FairLuck(luck)
      requires forall d :: d in w0.cat.datasets && w0.cat.datasets[d] == request.ds ==> !DeletingIn(w0, d)
      requires SafeNames(request)
      modifies repo`cat, repo`calls, repo`issued, store`keyCache, store.base, r
      ensures Runs(l, w0, steps, w) && Tied(w)
      ensures t.Some? ==> t.value.req == request.(chunkSize := ChunkBytes())
      ensures if t.Some? then OneStart(steps, t.value) && Admits(old(repo.cat), old(repo.issued), t.value) else steps == []
      ensures res.Ok? ==> t.Some? && Received(l, repo.cat, store.View(), t.value, res.value, old(r.Rest()))
      ensures res.Err? && t.None? ==> repo.cat == old(repo.cat) && store.View() == old(store.View())
      ensures res.Err? && t.Some? ==>
        t.value.snap in repo.cat.snapshots && repo.cat.snapshots[t.value.snap].status in {SnapshotStatus.Failed, Uploading}
      ensures t.Some? ==> t.value.sess !in w.live && (res.Err? && Unbroken() ==> FailedIn(repo.cat, t.value))
      ensures Acyclic(ParentsOf(w0.cat.snapshots))
      ensures res.Ok? ==> Arrives(r, luck, |old(r.Rest())|)
      ensures Unbroken() ==>
        (res.Ok? <==>
           && old(r.Rest()) != [] && Arrives(r, luck, |old(r.Rest())|)
           && !Refuses(w0.cat, request, if depth == 0 then serviceDepth else depth)
           && AllLand(Backend(), old(store.base.calls), luck.weather, PutsFor(|old(r.Rest())|)))
    {
      hide Inv, Runs, Shows, Sound, CacheTrue, ChunksOf, Concat, Fair, Refuses, Admits, StartRows, WellFormed, ManifestOf;
      hide Received, Restored, SafeNames, AllLand, Pieces, LastRead, FailedIn;
      var size := if chunkSize <= 0 then DEFAULT_CHUNK_SIZE else chunkSize;
      var req := request.(chunkSize := size);
      var limit := if depth == 0 then serviceDepth else depth;
      steps, w := [], w0;
      InvParts(l, w0);
      SafeFullyNamed(request, size);
      assert Runs(l, w0, [], w0) by { NoSteps(l, w0); }
      assert repo.Valid();
      t := repo.StartUpload(req, limit);
      SameRefusal(w0.cat, request, req, limit);
      if t.None? {
        return Err, t, steps, w;
      }
      assert CanStart(w0, t.value) by { MayStart(l, w0, t.value); }
      TookStart(l, w0, steps, w0, t.value);
      steps, w := steps + [StartUpload(t.value)], Started(w0, t.value);
      assert Handling(l, w0, steps, w, t.value, [], Reading);
      res, steps, w := Transfer(l, t.value, r, size, luck, w0, steps, w);
    }
  }

  /** The four names a manifest must have. */
  predicate FullyNamed(r: Request) {
    r.ds.source != "" && r.ds.pool != "" && r.ds.path != "" && r.name != ""
  }

  ghost predicate Received(l: Lib, c: Catalog, store: Objects, t: Start, receipt: Receipt, stream: Bytes) {
    && stream != [] && FullyNamed(t.req) && Restored(l, store, receipt.manifestKey) == Some(stream)
    && receipt.sha == l.sha(stream) && receipt.bytes == |stream| && Tiles(receipt.chunks, |stream|)
    && Slices(l, store, t.req, receipt.chunks, stream) && SizedEvery(receipt.chunks, t.req.chunkSize)
    && receipt.manifestKey == ManifestKey(t.req.ds, t.req.name) && InCatalog(c, t, receipt)
    && receipt.manifestKey in store && ManifestSays(l.unmarshal(store[receipt.manifestKey]), t.req, receipt)
  }

  /** What the stored manifest records of the stream. */
  ghost predicate ManifestSays(parsed: Option<Manifest>, r: Request, receipt: Receipt) {
    && parsed.Some?
    && var m := parsed.value;
       && m.version == 1 && m.format == "zfs-s3nd.snapshot.v1" && m.encryption.envelopeVersion == 1
       && m.encryption.algorithm == "XChaCha20-Poly1305" && m.encryption.kdf == "argon2id"
       && m.encryption.salt == "zfs-s3nd/storage-encryption/v1"
       && m.encryption.time == 3 && m.encryption.memoryKiB == 65536 && m.encryption.parallelism == 4
       && m.ds == r.ds && m.snapshot == r.name && m.baseSnapshot == r.base
       && m.stream.raw == r.raw && m.stream.compressed == r.compressed
       && m.stream.fromGuid == r.fromGuid && m.stream.toGuid == r.toGuid
       && m.stream.size == receipt.bytes && m.stream.sha == receipt.sha && m.stream.chunkSize == r.chunkSize
       && m.chunks == receipt.chunks
  }

  /** The committed row, its session and operation, and one row for each chunk. */
  ghost predicate InCatalog(c: Catalog, t: Start, receipt: Receipt) {
    && Named(c, t.req.ds, t.req.name, t.snap)
    && t.sess in c.sessions && c.sessions[t.sess].status == Complete
    && t.op in c.operations && c.operations[t.op].status == Succeeded
    && (forall i: nat :: (t.snap, i) in c.chunks <==> i < |receipt.chunks|)
    && (forall i: nat :: i < |receipt.chunks| ==> RowOf(c.chunks[(t.snap, i)], t.sess, receipt.chunks[i]))
    && var s := c.snapshots[t.snap];
       && s.status == Committed && s.manifestKey == Some(receipt.manifestKey) && s.streamSha == receipt.sha
       && s.storedBytes == receipt.bytes && s.chunkCount == |receipt.chunks|
       && s.fromGuid == t.req.fromGuid && s.toGuid == t.req.toGuid && BaseNamed(c, s, t.req.base)
  }

  predicate RowOf(row: ChunkRow, e: Id, chunk: Chunk) {
    && row.session == e && row.key == chunk.key && row.size == chunk.size
    && row.start == chunk.start && row.end == chunk.end && row.sha == chunk.sha
  }

  /** Every chunk is the stretch of the stream between its offsets, stored under its own key. */
  ghost predicate Slices(l: Lib, store: Objects, r: Request, chunks: seq<Chunk>, stream: Bytes) {
    forall i :: 0 <= i < |chunks| ==> Slice(l, store, r, chunks[i], i, stream)
  }

  ghost predicate Slice(l: Lib, store: Objects, r: Request, c: Chunk, i: nat, stream: Bytes) {
    && c.index == i && c.key == ChunkKey(r.ds, r.name, i)
    && 0 <= c.start <= c.end <= |stream| && c.size == c.end - c.start
    && c.key in store && store[c.key] == stream[c.start..c.end] && c.sha == l.sha(stream[c.start..c.end])
  }

  /** Every chunk but the last has exactly the chunk size, none is larger and none is empty. */
  ghost predicate SizedEvery(chunks: seq<Chunk>, size: int) {
    && (forall i :: 0 <= i < |chunks| ==> 0 < chunks[i].size <= size)
    && (forall i :: 0 <= i < |chunks| - 1 ==> chunks[i].size == size)
  }

  lemma ConcatSlice(parts: seq<Bytes>, i: nat)
    requires i < |parts|
    ensures var start := |Concat(parts[..i])|; start + |parts[i]| <= |Concat(parts)|
    ensures var start := |Concat(parts[..i])|; Concat(parts)[start..start + |parts[i]|] == parts[i]
  {
    hide Concat;
    assert parts[..i + 1] == parts[..i] + [parts[i]];
    ConcatSnoc(parts[..i], parts[i]);
    assert parts == parts[..i + 1] + parts[i + 1..];
    ConcatAppend(parts[..i + 1], parts[i + 1..]);
  }

  lemma HeldSlices(l: Lib, store: Objects, r: Request, parts: seq<Bytes>, size: nat)
    requires Holds(store, r, parts) && CutEvery(parts, size)
    ensures Slices(l, store, r, ChunksOf(l, r, parts), Concat(parts)) && SizedEvery(ChunksOf(l, r, parts), size)
  {
    hide Concat;
    var chunks := ChunksOf(l, r, parts);
    forall i | 0 <= i < |chunks| ensures Slice(l, store, r, chunks[i], i, Concat(parts)) {
      ConcatSlice(parts, i);
    }
  }

  lemma InvParts(l: Lib, w: World)
    requires Inv(l, w)
    ensures CatalogOk(w.cat) && IssuedOk(w) && Acyclic(ParentsOf(w.cat.snapshots))
  {
    hide CommittedOk, LiveOk, WorkerOk, ModeOk;
  }

  lemma NoSteps(l: Lib, w: World)
    requires Inv(l, w)
    ensures Runs(l, w, [], w)
  {
    hide Inv;
  }

  lemma SameRefusal(c: Catalog, a: Request, b: Request, limit: int)
    requires Acyclic(ParentsOf(c.snapshots)) && b == a.(chunkSize := b.chunkSize)
    ensures Refuses(c, a, limit) <==> Refuses(c, b, limit)
  {
    hide Acyclic, Chain, Blocked;
  }

  /** An identifier just issued is not the dataset a deletion is at work on. */
  lemma MayStart(l: Lib, w: World, t: Start)
    requires Inv(l, w) && Admits(w.cat, w.issued, t) && SafeNames(t.req)
    requires forall d :: d in w.cat.datasets && w.cat.datasets[d] == t.req.ds ==> !DeletingIn(w, d)
    ensures CanStart(w, t)
  {
    hide CatalogOk, CommittedOk, LiveOk, ModeOk, IssuedOk, ChildlessOk, KeysOfJob, Acyclic, Chain, Blocked, Targets;
  }

  lemma SafeFullyNamed(request: Request, size: int)
    requires SafeNames(request)
    ensures var req := request.(chunkSize := size); SafeNames(req) && FullyNamed(req)
  {
  }

  lemma EmptyStream(parts: seq<Bytes>)
    ensures parts == [] ==> Concat(parts) == []
  {
  }

  lemma NonEmptyStream(parts: seq<Bytes>, size: nat)
    requires parts != [] && CutEvery(parts, size)
    ensures Concat(parts) != []
  {
    ConcatPrefix(parts, 0);
  }

  lemma ManifestComplete(l: Lib, w0: World, steps: seq<Step>, w: World, e: Id)
    requires Lawful(l) && Runs(l, w0, steps, w) && e in w.live && w.live[e].parts != []
    ensures WellFormed(ManifestOf(l, w.live[e].req, w.live[e].parts)) <==> FullyNamed(w.live[e].req)
  {
    hide Runs, WellFormed, ManifestOf, Holds, RowsWritten, AtOk, RowMatches;
    LiveRow(l, w0, steps, w, e);
    ManifestAccepted(l, w.live[e].req, w.live[e].parts);
  }

  lemma LiveStatus(l: Lib, w0: World, steps: seq<Step>, w: World, e: Id)
    requires Runs(l, w0, steps, w) && e in w.live
    ensures w.live[e].snap in w.cat.snapshots && w.cat.snapshots[w.live[e].snap].status == Uploading
    ensures e in w.cat.sessions && w.live[e].op in w.cat.operations
  {
    hide Runs;
    LiveRow(l, w0, steps, w, e);
  }

  /** The upload is recorded as failed: its snapshot, its session and its operation. */
  ghost predicate FailedIn(c: Catalog, t: Start) {
    && t.snap in c.snapshots && c.snapshots[t.snap].status == SnapshotStatus.Failed
    && t.sess in c.sessions && c.sessions[t.sess].status == SessionFailed
    && t.op in c.operations && c.operations[t.op].status == OpFailed
  }

  lemma FailsRows(c: Catalog, t: Start)
    requires t.snap in c.snapshots && t.sess in c.sessions && t.op in c.operations
    ensures FailedIn(FailStatements(c, t.snap, t.sess, t.op), t)
  {
  }

  /** What a committed upload means to whoever sent it. */
  lemma CommittedReceived(l: Lib, w0: World, steps: seq<Step>, w: World, t: Start, parts: seq<Bytes>, receipt: Receipt)
    requires Lawful(l) && Runs(l, w0, steps, w) && t.snap in w.sent
    requires w.sent[t.snap] == (t.sess, Upload(t.d, t.snap, t.op, t.req, parts, Ready))
    requires t.snap in w.cat.snapshots && w.cat.snapshots[t.snap].status == Committed
    requires WellFormed(ManifestOf(l, t.req, parts)) && t.req.chunkSize >= 0 && CutEvery(parts, t.req.chunkSize)
    requires receipt ==
      Receipt(ManifestKey(t.req.ds, t.req.name), l.sha(Concat(parts)), |Concat(parts)|, ChunksOf(l, t.req, parts))
    ensures Received(l, w.cat, w.store, t, receipt, Concat(parts))
  {
    hide Runs, Holds, RowsWritten, Restored, ManifestOf, ChunksOf, WellFormed, Tiles, Slices, SizedEvery, CutEvery;
    hide InCatalog, ManifestSays;
    HeldCommitted(l, w0, steps, w, t, parts);
    CommittedArchived(l, w0, steps, w, t.snap);
    ArchivedRows(l, w.cat, w.store, t, parts, receipt);
    ManifestHeld(l, w.store, t.req, parts, receipt);
    HeldStreamRestores(l, w.store, t.req, parts);
    ManifestAccepted(l, t.req, parts);
    ChunksTile(l, t.req, parts);
    ChunkCount(l, t.req, parts);
    ConcatPrefix(parts, 0);
  }

  lemma HeldCommitted(l: Lib, w0: World, steps: seq<Step>, w: World, t: Start, parts: seq<Bytes>)
    requires Runs(l, w0, steps, w) && t.snap in w.sent && t.snap in w.cat.snapshots
    requires w.sent[t.snap] == (t.sess, Upload(t.d, t.snap, t.op, t.req, parts, Ready))
    requires w.cat.snapshots[t.snap].status == Committed && t.req.chunkSize >= 0 && CutEvery(parts, t.req.chunkSize)
    ensures Slices(l, w.store, t.req, ChunksOf(l, t.req, parts), Concat(parts))
    ensures SizedEvery(ChunksOf(l, t.req, parts), t.req.chunkSize)
  {
    hide Runs, Holds, RowsWritten, ChunksOf, CutEvery, Slices, SizedEvery, Concat, WellFormed, ManifestOf;
    CommittedArchived(l, w0, steps, w, t.snap);
    HeldSlices(l, w.store, t.req, parts, t.req.chunkSize);
  }

  lemma ManifestHeld(l: Lib, store: Objects, r: Request, parts: seq<Bytes>, receipt: Receipt)
    requires Lawful(l) && HoldsManifest(l, store, r, parts)
    requires receipt == Receipt(ManifestKey(r.ds, r.name), l.sha(Concat(parts)), |Concat(parts)|, ChunksOf(l, r, parts))
    ensures receipt.manifestKey in store && ManifestSays(l.unmarshal(store[receipt.manifestKey]), r, receipt)
  {
    hide WellFormed, Concat, ChunksOf;
    assert l.unmarshal(l.marshal(ManifestOf(l, r, parts))) == Some(ManifestOf(l, r, parts));
  }

  lemma ArchivedRows(l: Lib, c: Catalog, store: Objects, t: Start, parts: seq<Bytes>, receipt: Receipt)
    requires Archived(l, c, store, t.sess, Upload(t.d, t.snap, t.op, t.req, parts, Ready))
    requires c.snapshots[t.snap].status == Committed
    requires receipt ==
      Receipt(ManifestKey(t.req.ds, t.req.name), l.sha(Concat(parts)), |Concat(parts)|, ChunksOf(l, t.req, parts))
    ensures InCatalog(c, t, receipt)
  {
    hide Concat, Holds, HoldsManifest, NonEmptyParts, ManifestOf;
  }

  lemma ManifestIs(l: Lib, r: Request, parts: seq<Bytes>)
    ensures ManifestOf(l, r, parts) ==
      New(r.ds, r.name, r.base,
          Stream(r.raw, r.compressed, r.fromGuid, r.toGuid, |Concat(parts)|, l.sha(Concat(parts)), r.chunkSize),
          ChunksOf(l, r, parts))
  {
  }

  lemma CommitsSnapshot(l: Lib, c: Catalog, e: Id, u: Upload)
    requires u.snap in c.snapshots
    ensures u.snap in CommitRows(l, c, e, u).snapshots && CommitRows(l, c, e, u).snapshots[u.snap].status == Committed
  {
  }

  lemma LiveSnap(l: Lib, w0: World, steps: seq<Step>, w: World, e: Id)
    requires Runs(l, w0, steps, w) && e in w.live
    ensures w.live[e].snap in w.cat.snapshots
  {
    hide Runs;
    LiveRow(l, w0, steps, w, e);
  }

  /** Every part but the last has exactly the chunk size, and none is longer. */
  ghost predicate CutEvery(parts: seq<Bytes>, size: nat) {
    && (forall i :: 0 <= i < |parts| ==> 0 < |parts[i]| <= size)
    && (forall i :: 0 <= i < |parts| - 1 ==> |parts[i]| == size)
  }

  lemma AllCut(parts: seq<Bytes>, size: nat)
    requires size > 0 && forall i :: 0 <= i < |parts| ==> |parts[i]| == size
    ensures CutEvery(parts, size)
  {
  }

  lemma LastCut(parts: seq<Bytes>, last: Bytes, size: nat)
    requires 0 < |last| <= size && forall i :: 0 <= i < |parts| ==> |parts[i]| == size
    ensures CutEvery(parts + [last], size)
  {
  }

  lemma NoChunks(l: Lib, r: Request)
    ensures ChunksOf(l, r, []) == [] && Concat([]) == []
  {
  }

  lemma ChunkCount(l: Lib, r: Request, parts: seq<Bytes>)
    ensures |ChunksOf(l, r, parts)| == |parts|
  {
  }
}
