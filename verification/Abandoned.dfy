/** Startup cleanup of abandoned uploads (internal/cleanup/cleanup.go). */
module Abandoned {
  import opened Base
  import opened Manifests
  import opened Catalogs
  import opened Streams
  import opened Machine
  import opened Invariant
  import opened SafetyPurge
  import opened Storage
  import opened Envelopes
  import opened Repositories
  import opened Deletions
  import opened Deleters

  datatype AbandonedUpload = AbandonedUpload(id: Id, snapshot: Option<Id>, manifestKey: Option<Key>)

  /** A row of ListAbandonedUploadSessions. */
  predicate ListedUpload(c: Catalog, a: AbandonedUpload) {
    && a.id in c.sessions && c.sessions[a.id].status in {SessionFailed, SessionAborted}
    && a.snapshot == c.sessions[a.id].snapshot && a.manifestKey == c.sessions[a.id].manifestKey
  }

  ghost predicate IsListing(c: Catalog, uploads: seq<AbandonedUpload>) {
    && (forall i :: 0 <= i < |uploads| ==> ListedUpload(c, uploads[i]))
    && (forall i, j :: 0 <= i < j < |uploads| ==> uploads[i].id != uploads[j].id)
  }

  function ChunkRowsOf(c: Catalog, e: Id): set<(Id, nat)> {
    set k | k in c.chunks && c.chunks[k].session == e
  }

  lemma ChunkRowsAre(c: Catalog, e: Id, rows: set<(Id, nat)>)
    requires forall k :: k in rows <==> k in c.chunks && c.chunks[k].session == e
    ensures rows == ChunkRowsOf(c, e)
  {
  }

  function ChunkKeysOf(c: Catalog, e: Id): set<Key> {
    set k | k in c.chunks && c.chunks[k].session == e :: c.chunks[k].key
  }

  function ManifestKeyOf(a: AbandonedUpload): set<Key> {
    if a.manifestKey.Some? then {a.manifestKey.value} else {}
  }

  /** The objects a session tracks: its chunks and the manifest it noted. */
  function Tracked(c: Catalog, a: AbandonedUpload): set<Key> {
    ChunkKeysOf(c, a.id) + ManifestKeyOf(a)
  }

  function SnapshotOf(a: AbandonedUpload): set<Id> {
    if a.snapshot.Some? then {a.snapshot.value} else {}
  }

  function SnapshotsOf(uploads: seq<AbandonedUpload>): set<Id> {
    set i | 0 <= i < |uploads| && uploads[i].snapshot.Some? :: uploads[i].snapshot.value
  }

  function IdsOf(uploads: seq<AbandonedUpload>): set<Id> {
    set i | 0 <= i < |uploads| :: uploads[i].id
  }

  function TrackedAll(c: Catalog, uploads: seq<AbandonedUpload>): set<Key> {
    if uploads == [] then {}
    else TrackedAll(c, uploads[..|uploads| - 1]) + Tracked(c, uploads[|uploads| - 1])
  }

  function TrackedSum(c: Catalog, uploads: seq<AbandonedUpload>): nat {
    if uploads == [] then 0
    else TrackedSum(c, uploads[..|uploads| - 1]) + |Tracked(c, uploads[|uploads| - 1])|
  }

  function WithSnapshot(uploads: seq<AbandonedUpload>): nat {
    if uploads == [] then 0
    else WithSnapshot(uploads[..|uploads| - 1]) + (if uploads[|uploads| - 1].snapshot.Some? then 1 else 0)
  }

  /** The rows without the sessions and snapshots of these uploads, with all that cascades from them. */
  function CleanedRows(c: Catalog, uploads: seq<AbandonedUpload>): Catalog {
    Purge(c, {}, SnapshotsOf(uploads), IdsOf(uploads))
  }

  lemma NothingToPurge(c: Catalog)
    ensures Purge(c, {}, {}, {}) == c
  {
    var p := Purge(c, {}, {}, {});
    assert p.sessions == c.sessions && p.chunks == c.chunks && p.operations == c.operations;
    assert p.datasets == c.datasets && p.snapshots == c.snapshots;
  }

  // ---- what listed sessions have to do with the rest ----

  /** Nothing refers to the snapshot of a failed or aborted session, so deleting it is never blocked. */
  lemma NeverBlocked(c: Catalog, a: AbandonedUpload)
    requires CatalogOk(c) && ListedUpload(c, a)
    ensures !Blocked(c, SnapshotOf(a), {}) && Removable(c, {}, SnapshotOf(a), {a.id})
  {
    hide SnapshotRowsOk, SessionRowsOk, ChunkRowsOk, OperationRowsOk, UniqueOk, StatusOk, LinksOk;
    if a.snapshot.Some? {
      assert !Referenceable(c.snapshots, c.sessions, a.snapshot.value);
    }
  }

  /** Cleaning one session leaves the others listed, tracking what they tracked. */
  lemma StaysListed(c: Catalog, a: AbandonedUpload, b: AbandonedUpload)
    requires CatalogOk(c) && ListedUpload(c, a) && ListedUpload(c, b) && a.id != b.id
    ensures var p := Purge(c, {}, SnapshotOf(a), {a.id}); ListedUpload(p, b) && Tracked(p, b) == Tracked(c, b)
  {
    hide SnapshotRowsOk, SessionRowsOk, OperationRowsOk, StatusOk, RefsOk, LinksOk;
    var p := Purge(c, {}, SnapshotOf(a), {a.id});
    assert a.snapshot.Some? ==> b.snapshot != a.snapshot;
    assert forall k :: k in ChunkRowsOf(c, b.id) ==> b.snapshot == Some(k.0) && k in p.chunks;
    assert ChunkKeysOf(p, b.id) == ChunkKeysOf(c, b.id) by { SameChunkKeys(c, p, b.id); }
  }

  lemma SameChunkKeys(c: Catalog, p: Catalog, e: Id)
    requires forall k :: k in p.chunks ==> k in c.chunks && p.chunks[k] == c.chunks[k]
    requires forall k :: k in c.chunks && c.chunks[k].session == e ==> k in p.chunks
    ensures ChunkKeysOf(p, e) == ChunkKeysOf(c, e)
  {
  }

  /** Some of the tracked objects are gone, and as many are counted, or one more is gone: its delete was carried out
      although the call failed. */
  ghost predicate PartlyRemoved(before: Objects, tracked: set<Key>, after: Objects, objects: nat) {
    exists gone, more ::
      gone <= more <= tracked && |gone| <= |more| <= |gone| + 1 && objects == |gone| && after == before - more
  }

  lemma RemovedExactly(before: Objects, tracked: set<Key>, after: Objects, gone: set<Key>)
    requires gone <= tracked && after == before - gone
    ensures PartlyRemoved(before, tracked, after, |gone|)
  {
    assert gone <= gone <= tracked;
  }

  lemma AlmostRemoved(before: Objects, tracked: set<Key>, after: Objects, gone: set<Key>, key: Key)
    requires gone + {key} <= tracked && key !in gone && after in {before - gone, before - (gone + {key})}
    ensures PartlyRemoved(before, tracked, after, |gone|)
  {
    if after == before - gone {
      RemovedExactly(before, tracked, after, gone);
    } else {
      assert |gone + {key}| == |gone| + 1;
      assert gone <= gone + {key} <= tracked;
    }
  }

  lemma NothingRemoved(before: Objects, tracked: set<Key>)
    ensures PartlyRemoved(before, tracked, before, 0)
  {
    assert before - {} == before;
    RemovedExactly(before, tracked, before, {});
  }

  lemma WiderRemoved(before: Objects, tracked: set<Key>, wider: set<Key>, after: Objects, objects: nat)
    requires PartlyRemoved(before, tracked, after, objects) && tracked <= wider
    ensures PartlyRemoved(before, wider, after, objects)
  {
    var gone, more :|
      gone <= more <= tracked && |gone| <= |more| <= |gone| + 1 && objects == |gone| && after == before - more;
    assert gone <= more <= wider;
  }

  /** Cleanup stopped in the i-th upload: those before are cleaned and counted, and of this one some objects, or all
      of them and then the snapshot row. */
  ghost predicate StoppedIn(c: Catalog, view: Objects, uploads: seq<AbandonedUpload>, i: nat,
                            after: Catalog, left: Objects, snapshots: nat, objects: nat) {
    && i < |uploads|
    && var cleaned, sum, rows := CleanedRows(c, uploads[..i]), TrackedSum(c, uploads[..i]), WithSnapshot(uploads[..i]);
       && rows <= snapshots <= rows + 1 && sum <= objects
       && after == (if snapshots == rows then cleaned else Purge(cleaned, {}, SnapshotOf(uploads[i]), {}))
       && PartlyRemoved(view - TrackedAll(c, uploads[..i]), Tracked(c, uploads[i]), left, objects - sum)
  }

  class Cleaner {
    const repo: Repository
    const store: EncryptedStore

    constructor (repo: Repository, store: EncryptedStore)
      ensures this.repo == repo && this.store == store
    {
      this.repo, this.store := repo, store;
    }

    ghost predicate Smooth()
      reads repo, store, store.base
    {
      (forall n :: store.base.plan(n) == Done) && (forall n :: !repo.broken(n))
    }

    /** ListUploadSessionChunks: the rows a session recorded. */
    method ListChunks(e: Id) returns (rows: set<(Id, nat)>)
      ensures rows == ChunkRowsOf(repo.cat, e)
    {
      var chunks := repo.cat.chunks;
      rows := set k | k in chunks && chunks[k].session == e;
      ChunkRowsAre(repo.cat, e, rows);
    }

    method RemoveChunks(e: Id) returns (ok: bool, seen: set<Key>)
      requires store.Valid()
      modifies store.base
      ensures store.Valid() && seen <= ChunkKeysOf(repo.cat, e)
      ensures ok ==> seen == ChunkKeysOf(repo.cat, e) && store.View() == old(store.View()) - seen
      ensures PartlyRemoved(old(store.View()), ChunkKeysOf(repo.cat, e), store.View(), |seen|)
      ensures (forall n :: store.base.plan(n) == Done) ==> ok
    {
      hide Shows, Sound, CacheTrue, PartlyRemoved;
      ghost var view := store.View();
      var chunks := repo.cat.chunks;
      var rest := ListChunks(e);
      seen := {};
      while rest != {}
        invariant store.Valid() && rest <= ChunkRowsOf(repo.cat, e) && seen <= ChunkKeysOf(repo.cat, e)
        invariant forall k :: k in ChunkRowsOf(repo.cat, e) && k !in rest ==> chunks[k].key in seen
        invariant store.View() == view - seen
        decreases |rest|
      {
        var row :| row in rest;
        rest := rest - {row};
        var key := chunks[row].key;
        if key !in seen {
          var done := store.Delete(key);
          assert view - seen - {key} == view - (seen + {key});
          if !done {
            AlmostRemoved(view, ChunkKeysOf(repo.cat, e), store.View(), seen, key);
            return false, seen;
          }
          seen := seen + {key};
        }
      }
      assert PartlyRemoved(view, ChunkKeysOf(repo.cat, e), store.View(), |seen|) by {
        RemovedExactly(view, ChunkKeysOf(repo.cat, e), store.View(), seen);
      }
      ok := true;
    }

    /** The objects of one upload: every tracked key once, chunks first, then the manifest unless already seen. */
    method RemoveObjects(a: AbandonedUpload) returns (ok: bool, objects: nat)
      requires store.Valid()
      modifies repo`calls, store.base
      ensures store.Valid()
      ensures ok ==> store.View() == old(store.View()) - Tracked(repo.cat, a) && objects == |Tracked(repo.cat, a)|
      ensures PartlyRemoved(old(store.View()), Tracked(repo.cat, a), store.View(), objects)
      ensures Smooth() ==> ok
    {
      hide Shows, Sound, CacheTrue, ChunkKeysOf, PartlyRemoved;
      objects := 0;
      ghost var view := store.View();
      assert PartlyRemoved(view, Tracked(repo.cat, a), view, 0) by { NothingRemoved(view, Tracked(repo.cat, a)); }
      ok := repo.Statement();
      if !ok {
        return;
      }
      var seen;
      ok, seen := RemoveChunks(a.id);
      objects := |seen|;
      assert PartlyRemoved(view, Tracked(repo.cat, a), store.View(), objects) by {
        WiderRemoved(view, ChunkKeysOf(repo.cat, a.id), Tracked(repo.cat, a), store.View(), objects);
      }
      if !ok {
        return;
      }
      if a.manifestKey.Some? && a.manifestKey.value !in seen {
        var key := a.manifestKey.value;
        ok := store.Delete(key);
        assert view - seen - {key} == view - (seen + {key});
        assert |seen + {key}| == |seen| + 1;
        if ok {
          objects := objects + 1;
          RemovedExactly(view, Tracked(repo.cat, a), store.View(), seen + {key});
        } else {
          AlmostRemoved(view, Tracked(repo.cat, a), store.View(), seen, key);
        }
      }
      assert a.manifestKey.Some? && a.manifestKey.value in seen ==> Tracked(repo.cat, a) == seen;
    }

    /** One listed upload: its objects, its snapshot row, its session row. dropped says whether the snapshot row was
        deleted. */
    method CleanOne(a: AbandonedUpload) returns (ok: bool, dropped: bool, objects: nat)
      requires store.Valid()
      modifies repo`cat, repo`calls, store.base
      ensures store.Valid()
      ensures ok ==> repo.cat == Purge(old(repo.cat), {}, SnapshotOf(a), {a.id}) && dropped == a.snapshot.Some?
      ensures !ok ==> repo.cat == if dropped then Purge(old(repo.cat), {}, SnapshotOf(a), {}) else old(repo.cat)
      ensures ok || dropped ==>
        store.View() == old(store.View()) - Tracked(old(repo.cat), a) && objects == |Tracked(old(repo.cat), a)|
      ensures PartlyRemoved(old(store.View()), Tracked(old(repo.cat), a), store.View(), objects)
      ensures Smooth() && !Blocked(old(repo.cat), SnapshotOf(a), {}) ==> ok
    {
      hide Shows, Sound, CacheTrue, Tracked, Purge, Blocked, PartlyRemoved;
      dropped := false;
      ok, objects := RemoveObjects(a);
      if !ok {
        return;
      }
      ghost var c := repo.cat;
      NothingToPurge(c);
      if a.snapshot.Some? {
        ok := repo.Statement();
        var deleted := DeleteSnapshot(repo.cat, a.snapshot.value);
        if !ok || deleted.None? {
          return false, false, objects;
        }
        repo.cat := deleted.value;
        dropped := true;
      }
      assert repo.cat == Purge(c, {}, SnapshotOf(a), {});
      ok := repo.Statement();
      if !ok {
        return;
      }
      repo.cat := DeleteSessions(repo.cat, {a.id});
      PurgesAdd(c, SnapshotOf(a), {}, {}, {a.id});
      assert SnapshotOf(a) + {} == SnapshotOf(a) && {} + {a.id} == {a.id};
    }

    /** Cleanup, over the sessions the query listed. If it succeeds, exactly the sessions, their snapshots and what
        cascades from them are gone, and exactly the objects they tracked; the count adds up what each tracked. If a
        call fails, the sessions before are cleaned, and the one it stopped in partly. */
    method Cleanup(uploads: seq<AbandonedUpload>) returns (ok: bool, sessions: nat, snapshots: nat, objects: nat)
      requires store.Valid() && CatalogOk(repo.cat) && IsListing(repo.cat, uploads)
      modifies repo`cat, repo`calls, store.base
      ensures store.Valid()
      ensures ok ==>
        && repo.cat == CleanedRows(old(repo.cat), uploads)
        && store.View() == old(store.View()) - TrackedAll(old(repo.cat), uploads)
        && sessions == |uploads| && snapshots == WithSnapshot(uploads) && objects == TrackedSum(old(repo.cat), uploads)
      ensures !ok ==>
        StoppedIn(old(repo.cat), old(store.View()), uploads, sessions, repo.cat, store.View(), snapshots, objects)
      ensures Smooth() ==> ok
    {
      hide Shows, Sound, CacheTrue, Tracked, Purge, Blocked, CatalogOk, ListedUpload, SnapshotOf, PartlyRemoved;
      sessions, snapshots, objects := 0, 0, 0;
      ghost var c, view := repo.cat, store.View();
      NothingToPurge(c);
      assert SnapshotsOf([]) == {} && IdsOf([]) == {};
      assert uploads[..0] == [];
      for i := 0 to |uploads|
        invariant store.Valid() && CatalogOk(repo.cat)
        invariant repo.cat == CleanedRows(c, uploads[..i]) && store.View() == view - TrackedAll(c, uploads[..i])
        invariant sessions == i && snapshots == WithSnapshot(uploads[..i]) && objects == TrackedSum(c, uploads[..i])
        invariant forall n :: i <= n < |uploads| ==>
          ListedUpload(repo.cat, uploads[n]) && Tracked(repo.cat, uploads[n]) == Tracked(c, uploads[n])
      {
        var a := uploads[i];
        ghost var before := repo.cat;
        NeverBlocked(before, a);
        var done, dropped, n := CleanOne(a);
        objects := objects + n;
        if dropped {
          snapshots := snapshots + 1;
        }
        if !done {
          return false, sessions, snapshots, objects;
        }
        assert uploads[..i + 1][..i] == uploads[..i];
        CleanedSnoc(c, uploads, i);
        PurgeCatalog(before, {}, SnapshotOf(a), {a.id});
        forall m | i < m < |uploads|
          ensures ListedUpload(repo.cat, uploads[m]) && Tracked(repo.cat, uploads[m]) == Tracked(c, uploads[m])
        {
          StaysListed(before, a, uploads[m]);
        }
        assert view - TrackedAll(c, uploads[..i]) - Tracked(c, a) == view - TrackedAll(c, uploads[..i + 1]);
        sessions := sessions + 1;
      }
      assert uploads[..|uploads|] == uploads;
      ok := true;
    }
  }

  /** One more upload cleaned is one more in the closed form. */
  lemma CleanedSnoc(c: Catalog, uploads: seq<AbandonedUpload>, i: nat)
    requires i < |uploads|
    ensures Purge(CleanedRows(c, uploads[..i]), {}, SnapshotOf(uploads[i]), {uploads[i].id})
         == CleanedRows(c, uploads[..i + 1])
  {
    hide Purge;
    var before, after := uploads[..i], uploads[..i + 1];
    assert after == before + [uploads[i]];
    PurgesAdd(c, SnapshotsOf(before), IdsOf(before), SnapshotOf(uploads[i]), {uploads[i].id});
    assert IdsOf(after) == IdsOf(before) + {uploads[i].id} by {
      assert forall n :: 0 <= n < i ==> after[n] == before[n];
    }
    assert SnapshotsOf(after) == SnapshotsOf(before) + SnapshotOf(uploads[i]) by {
      assert forall n :: 0 <= n < i ==> after[n] == before[n];
    }
  }
}
