/** Writing a stored stream back out (internal/restore/restore.go). */
module Restore {
  import opened Base
  import opened Manifests
  import opened Streams
  import opened Storage
  import opened Envelopes

  /** Nothing was written without a manifest; with one, exactly the data of the chunks before the first that is
      missing or does not have its size and hash. */
  ghost predicate WroteChunks(l: Lib, view: Objects, key: Key, out: Bytes) {
    if key in view && Unmarshal(l, view[key]).Some? then
      var m := Unmarshal(l, view[key]).value;
      exists i :: 0 <= i <= |m.chunks| && ReadChunks(l, view, m.chunks[..i]) == Some(out)
                  && (i < |m.chunks| ==> ReadChunks(l, view, m.chunks[..i + 1]) == None)
    else out == []
  }

  /** StreamSnapshot: one pass over the chunks, each checked in full before its bytes are written, then the total
      and the stream hash. Whatever goes wrong, the chunks before it have been written. */
  method StreamSnapshot(l: Lib, store: EncryptedStore, key: Key) returns (ok: bool, out: Bytes)
    requires store.Valid()
    modifies store`keyCache
    ensures store.Valid()
    ensures ok <==> Restored(l, store.View(), key).Some?
    ensures ok ==> out == Restored(l, store.View(), key).value
    ensures WroteChunks(l, store.View(), key, out)
  {
    hide Shows, Sound, CacheTrue, WellFormed;
    out := [];
    var body := store.GetBytes(key);
    if body.None? { return false, []; }
    var parsed := Parse(l, body.value);
    if parsed.None? { return false, []; }
    var m := parsed.value;
    var total := 0;
    ghost var view := store.View();
    for i := 0 to |m.chunks|
      invariant store.Valid() && store.View() == view
      invariant ReadChunks(l, view, m.chunks[..i]) == Some(out)
      invariant total == |out|
    {
      var c := m.chunks[i];
      assert m.chunks[..i + 1][..i] == m.chunks[..i];
      var data := store.GetBytes(c.key);
      if data.None? || |data.value| != c.size || l.sha(data.value) != c.sha {
        ReadPrefixFails(l, view, m.chunks, i + 1);
        return false, out;
      }
      out := out + data.value;
      total := total + c.size;
      ReadPrefix(l, view, m.chunks, i + 1);
    }
    assert m.chunks[..|m.chunks|] == m.chunks;
    ok := total == m.stream.size && l.sha(out) == m.stream.sha;
  }
}
