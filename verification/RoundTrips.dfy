/** Storing a stream and reading it back, through the encrypted store (internal/ingest, internal/restore). */
module RoundTrips {
  import opened Base
  import opened Manifests
  import opened Catalogs
  import opened Lineage
  import opened Streams
  import opened Machine
  import opened Invariant
  import opened Envelopes
  import opened Puts
  import opened Readers
  import opened Repositories
  import opened IngestSteps
  import opened Ingest
  import opened Restore

  /** Whatever the stream, the chunk size, the reader's pieces and the puts that failed on the way: once Receive has
      succeeded, StreamSnapshot on the returned key reports no error and writes exactly the stream that was sent; and it
      does succeed when the stream arrives whole, the request is not refused, every put lands and no statement fails. */
  method ReceiveThenRestore(s: Service, l: Lib, request: Request, depth: int, serviceDepth: int,
                            r: Reader, luck: Luck, ghost w0: World)
    returns (received: bool, restored: bool, out: Bytes)
    requires Inv(l, w0) && s.Tied(w0) && Lawful(l) && FairLuck(luck)
    requires forall d :: d in w0.cat.datasets && w0.cat.datasets[d] == request.ds ==> !DeletingIn(w0, d)
    requires SafeNames(request)
    modifies s.repo`cat, s.repo`calls, s.repo`issued, s.store`keyCache, s.store.base, r
    ensures received ==> restored && out == old(r.Rest()) && out != []
    ensures s.Unbroken() ==>
      (received <==>
         && old(r.Rest()) != [] && s.Arrives(r, luck, |old(r.Rest())|)
         && !Refuses(w0.cat, request, if depth == 0 then serviceDepth else depth)
         && AllLand(s.Backend(), old(s.store.base.calls), luck.weather, s.PutsFor(|old(r.Rest())|)))
  {
    hide Inv, Runs, Shows, Sound, CacheTrue, Concat, Refuses, Restored, SafeNames, InCatalog, Slices, SizedEvery, AllLand;
    var res, t, steps, w := s.Receive(l, request, depth, serviceDepth, r, luck, w0);
    if res.Err? {
      return false, false, [];
    }
    received := true;
    restored, out := StreamSnapshot(l, s.store, res.value.manifestKey);
  }
}
