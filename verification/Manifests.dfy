/** The manifest of one stored snapshot (internal/manifest/manifest.go). */
module Manifests {
  import opened Base

  const VERSION := 1
  const FORMAT := "zfs-s3nd.snapshot.v1"

  datatype DatasetName = DatasetName(source: string, pool: string, path: string)

  /** An object key by the names it is built from; module Keys renders it as a string. */
  datatype Key =
    | ChunkKey(ds: DatasetName, snapshot: string, index: nat)
    | ManifestKey(ds: DatasetName, snapshot: string)

  datatype Chunk = Chunk(index: int, key: Key, size: int, start: int, end: int, sha: string)

  datatype Encryption = Encryption(envelopeVersion: int, algorithm: string, kdf: string, salt: string,
                                   time: nat, memoryKiB: nat, parallelism: nat)

  datatype Stream = Stream(raw: bool, compressed: bool, fromGuid: string, toGuid: string,
                           size: int, sha: string, chunkSize: int)

  datatype Manifest = Manifest(version: int, format: string, encryption: Encryption,
                               ds: DatasetName, snapshot: string, baseSnapshot: string,
                               stream: Stream, chunks: seq<Chunk>)

  /** SHA-256 (in hex) and the JSON codec: foreign code, known only by its laws. */
  datatype Lib = Lib(sha: Bytes -> string, marshal: Manifest -> Bytes, unmarshal: Bytes -> Option<Manifest>)

  ghost predicate Lawful(l: Lib) {
    && (forall b :: l.sha(b) != "")
    && (forall m :: l.unmarshal(l.marshal(m)) == Some(m))
  }

  const STORAGE_ENCRYPTION :=
    Encryption(1, "XChaCha20-Poly1305", "argon2id", "zfs-s3nd/storage-encryption/v1", 3, 64 * 1024, 4)

  function New(ds: DatasetName, snapshot: string, base: string, stream: Stream, chunks: seq<Chunk>): Manifest {
    Manifest(VERSION, FORMAT, STORAGE_ENCRYPTION, ds, snapshot, base, stream, chunks)
  }

  function TotalSize(chunks: seq<Chunk>): int {
    if chunks == [] then 0 else TotalSize(chunks[..|chunks| - 1]) + chunks[|chunks| - 1].size
  }

  predicate ChunkOk(c: Chunk, i: int) {
    c.index == i && c.sha != "" && c.size > 0 && c.end - c.start == c.size
  }

  /** What an accepted manifest is, as one statement about the whole chunk list. */
  predicate WellFormed(m: Manifest) {
    && m.version == 1 && m.format == "zfs-s3nd.snapshot.v1"
    && m.encryption.envelopeVersion != 0 && m.encryption.algorithm != ""
    && m.encryption.kdf != "" && m.encryption.salt != ""
    && m.ds.source != "" && m.ds.pool != "" && m.ds.path != "" && m.snapshot != ""
    && m.chunks != []
    && (forall i :: 0 <= i < |m.chunks| ==> ChunkOk(m.chunks[i], i))
    && m.stream.size == TotalSize(m.chunks)
    && m.stream.sha != ""
  }

  /** Manifest.Validate: one pass with a running total, accepting exactly the well-formed manifests. */
  method Validate(m: Manifest) returns (ok: bool)
    ensures ok <==> WellFormed(m)
  {
    if m.version != VERSION || m.format != FORMAT { return false; }
    if m.encryption.envelopeVersion == 0 || m.encryption.algorithm == ""
       || m.encryption.kdf == "" || m.encryption.salt == "" { return false; }
    if m.ds.source == "" || m.ds.pool == "" || m.ds.path == "" || m.snapshot == "" { return false; }
    if m.chunks == [] { return false; }
    var total := 0;
    for i := 0 to |m.chunks|
      invariant total == TotalSize(m.chunks[..i])
      invariant forall j :: 0 <= j < i ==> ChunkOk(m.chunks[j], j)
    {
      var c := m.chunks[i];
      if c.index != i || c.sha == "" { return false; }
      if c.size <= 0 || c.end - c.start != c.size { return false; }
      total := total + m.chunks[i].size;
      assert m.chunks[..i + 1][..i] == m.chunks[..i];
    }
    assert m.chunks[..|m.chunks|] == m.chunks;
    return m.stream.size == total && m.stream.sha != "";
  }

  /** What Manifest.Unmarshal accepts. */
  function Unmarshal(l: Lib, data: Bytes): Option<Manifest> {
    match l.unmarshal(data)
    case None => None
    case Some(m) => if WellFormed(m) then Some(m) else None
  }

  /** Manifest.Unmarshal: parse, then Validate. */
  method Parse(l: Lib, data: Bytes) returns (m: Option<Manifest>)
    ensures m == Unmarshal(l, data)
    ensures m.Some? ==> l.unmarshal(data) == m && WellFormed(m.value)
  {
    var parsed := l.unmarshal(data);
    if parsed.None? { return None; }
    var ok := Validate(parsed.value);
    return if ok then parsed else None;
  }
}
