/** One stored stream: its parts, the chunk list and manifest derived from them, and reading it back. */
module Streams {
  import opened Base
  import opened Manifests

  type Objects = map<Key, Bytes>

  /** What a client asked to store, and the parts received so far. */
  datatype Request = Request(ds: DatasetName, name: string, base: string, raw: bool, compressed: bool,
                             fromGuid: string, toGuid: string, chunkSize: int)

  /** Chunk i of a stream cut into parts: offsets continue where chunk i - 1 ended. */
  function ChunkOf(l: Lib, r: Request, parts: seq<Bytes>, i: nat): Chunk
    requires i < |parts|
  {
    var start := |Concat(parts[..i])|;
    Chunk(i, ChunkKey(r.ds, r.name, i), |parts[i]|, start, start + |parts[i]|, l.sha(parts[i]))
  }

  function ChunksOf(l: Lib, r: Request, parts: seq<Bytes>): seq<Chunk> {
    seq(|parts|, i requires 0 <= i < |parts| => ChunkOf(l, r, parts, i))
  }

  function ManifestOf(l: Lib, r: Request, parts: seq<Bytes>): Manifest {
    New(r.ds, r.name, r.base,
        Stream(r.raw, r.compressed, r.fromGuid, r.toGuid, |Concat(parts)|, l.sha(Concat(parts)), r.chunkSize),
        ChunksOf(l, r, parts))
  }

  ghost predicate NonEmptyParts(parts: seq<Bytes>) {
    forall i :: 0 <= i < |parts| ==> parts[i] != []
  }

  lemma ChunksSnoc(l: Lib, r: Request, parts: seq<Bytes>, last: Bytes)
    ensures ChunksOf(l, r, parts + [last])
         == ChunksOf(l, r, parts) + [ChunkOf(l, r, parts + [last], |parts|)]
  {
    forall i | 0 <= i < |parts|
      ensures ChunkOf(l, r, parts + [last], i) == ChunkOf(l, r, parts, i)
    {
      assert (parts + [last])[..i] == parts[..i];
    }
  }

  lemma {:induction false} ChunkTotal(l: Lib, r: Request, parts: seq<Bytes>)
    ensures TotalSize(ChunksOf(l, r, parts)) == |Concat(parts)|
  {
    if parts != [] {
      var k := |parts| - 1;
      assert parts == parts[..k] + [parts[k]];
      ChunksSnoc(l, r, parts[..k], parts[k]);
      ChunkTotal(l, r, parts[..k]);
      var chunks := ChunksOf(l, r, parts);
      assert chunks[..k] == ChunksOf(l, r, parts[..k]);
    }
  }

  ghost predicate Tiles(chunks: seq<Chunk>, size: int) {
    && chunks != [] && chunks[0].start == 0 && chunks[|chunks| - 1].end == size
    && (forall i :: 0 < i < |chunks| ==> chunks[i].start == chunks[i - 1].end)
    && (forall i :: 0 <= i < |chunks| ==> chunks[i].start < chunks[i].end <= size)
  }

  lemma ChunkEnds(l: Lib, r: Request, parts: seq<Bytes>, i: nat)
    requires i < |parts|
    ensures ChunkOf(l, r, parts, i).end == |Concat(parts[..i + 1])| <= |Concat(parts)|
  {
    ConcatPrefix(parts, i);
  }

  /** The chunk list tiles the stream: offsets start at 0, meet without gap or overlap, and end at its size. */
  lemma ChunksTile(l: Lib, r: Request, parts: seq<Bytes>)
    requires NonEmptyParts(parts) && parts != []
    ensures Tiles(ChunksOf(l, r, parts), |Concat(parts)|)
  {
    var c := ChunksOf(l, r, parts);
    forall i | 0 <= i < |c| ensures c[i].start < c[i].end <= |Concat(parts)| {
      ChunkEnds(l, r, parts, i);
    }
    forall i | 0 < i < |c| ensures c[i].start == c[i - 1].end {
      ChunkEnds(l, r, parts, i - 1);
    }
    ChunkEnds(l, r, parts, |parts| - 1);
    assert parts[..|parts|] == parts;
  }

  /** Validate accepts the manifest of every received stream, as long as the four names are present. */
  lemma ManifestAccepted(l: Lib, r: Request, parts: seq<Bytes>)
    requires Lawful(l) && NonEmptyParts(parts) && parts != []
    ensures WellFormed(ManifestOf(l, r, parts))
       <==> r.ds.source != "" && r.ds.pool != "" && r.ds.path != "" && r.name != ""
  {
    ChunkTotal(l, r, parts);
  }

  // ---- StreamSnapshot (internal/restore/restore.go) ----

  /** The bytes of one chunk if the store has them with the manifest's size and hash. */
  function ReadChunk(l: Lib, store: Objects, c: Chunk): Option<Bytes> {
    if c.key in store && |store[c.key]| == c.size && l.sha(store[c.key]) == c.sha
    then Some(store[c.key]) else None
  }

  function ReadChunks(l: Lib, store: Objects, chunks: seq<Chunk>): Option<Bytes> {
    if chunks == [] then Some([])
    else
      match (ReadChunks(l, store, chunks[..|chunks| - 1]), ReadChunk(l, store, chunks[|chunks| - 1]))
      case (Some(before), Some(data)) => Some(before + data)
      case _ => None
  }

  /** What StreamSnapshot writes when it reports success. */
  function Restored(l: Lib, store: Objects, key: Key): Option<Bytes> {
    if key !in store then None
    else
      match Unmarshal(l, store[key])
      case None => None
      case Some(m) =>
        match ReadChunks(l, store, m.chunks)
        case None => None
        case Some(data) => if |data| == m.stream.size && l.sha(data) == m.stream.sha then Some(data) else None
  }

  lemma {:induction false} ReadPrefixFails(l: Lib, store: Objects, chunks: seq<Chunk>, i: nat)
    requires i <= |chunks| && ReadChunks(l, store, chunks[..i]).None?
    ensures ReadChunks(l, store, chunks).None?
    decreases |chunks|
  {
    if i < |chunks| {
      var k := |chunks| - 1;
      assert chunks[..k][..i] == chunks[..i];
      ReadPrefixFails(l, store, chunks[..k], i);
    } else {
      assert chunks[..i] == chunks;
    }
  }

  lemma {:induction false} TotalIsLength(l: Lib, store: Objects, chunks: seq<Chunk>)
    requires ReadChunks(l, store, chunks).Some?
    ensures |ReadChunks(l, store, chunks).value| == TotalSize(chunks)
  {
    if chunks != [] {
      TotalIsLength(l, store, chunks[..|chunks| - 1]);
    }
  }

  lemma {:induction false} ReadPrefix(l: Lib, store: Objects, chunks: seq<Chunk>, i: nat)
    requires i <= |chunks|
    ensures ReadChunks(l, store, chunks).Some? ==>
      ReadChunks(l, store, chunks[..i]).Some?
      && ReadChunks(l, store, chunks[..i]).value <= ReadChunks(l, store, chunks).value
    decreases |chunks|
  {
    if i < |chunks| {
      var k := |chunks| - 1;
      assert chunks[..k][..i] == chunks[..i];
      ReadPrefix(l, store, chunks[..k], i);
    } else {
      assert chunks[..i] == chunks;
    }
  }

  // ---- what an upload leaves behind ----

  ghost predicate Holds(store: Objects, r: Request, parts: seq<Bytes>) {
    forall i :: 0 <= i < |parts| ==>
      ChunkKey(r.ds, r.name, i) in store && store[ChunkKey(r.ds, r.name, i)] == parts[i]
  }

  ghost predicate HoldsManifest(l: Lib, store: Objects, r: Request, parts: seq<Bytes>) {
    && WellFormed(ManifestOf(l, r, parts))
    && ManifestKey(r.ds, r.name) in store
    && store[ManifestKey(r.ds, r.name)] == l.marshal(ManifestOf(l, r, parts))
  }

  lemma {:induction false} HeldChunksRead(l: Lib, store: Objects, r: Request, parts: seq<Bytes>)
    requires Holds(store, r, parts)
    ensures ReadChunks(l, store, ChunksOf(l, r, parts)) == Some(Concat(parts))
  {
    if parts != [] {
      var k := |parts| - 1;
      assert parts == parts[..k] + [parts[k]];
      ChunksSnoc(l, r, parts[..k], parts[k]);
      HeldChunksRead(l, store, r, parts[..k]);
      var chunks := ChunksOf(l, r, parts);
      assert chunks[..k] == ChunksOf(l, r, parts[..k]);
    }
  }

  /** A store that holds the parts and the manifest restores exactly the stream that was sent. */
  lemma HeldStreamRestores(l: Lib, store: Objects, r: Request, parts: seq<Bytes>)
    requires Lawful(l) && Holds(store, r, parts) && HoldsManifest(l, store, r, parts)
    ensures Restored(l, store, ManifestKey(r.ds, r.name)) == Some(Concat(parts))
  {
    HeldChunksRead(l, store, r, parts);
  }

  /** Objects of other snapshots do not matter. */
  ghost predicate SameObjects(a: Objects, b: Objects, ds: DatasetName, name: string) {
    forall k: Key :: k.ds == ds && k.snapshot == name ==> (k in a <==> k in b) && (k in a ==> a[k] == b[k])
  }
}
