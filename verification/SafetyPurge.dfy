/** Deleting rows: every DELETE of the catalog, with its cascades, keeps the catalog consistent. */
module SafetyPurge {
  import opened Base
  import opened Manifests
  import opened Catalogs
  import opened Lineage
  import opened Streams
  import opened Machine
  import opened Invariant
  import opened Safety

  /** What makes a set of rows removable together. */
  ghost predicate Removable(c: Catalog, d: set<Id>, s: set<Id>, e: set<Id>) {
    && !Blocked(c, s, e)
    && (forall t :: t in c.snapshots && c.snapshots[t].dataset in d ==> t in s)
    && (forall f :: f in c.sessions && c.sessions[f].dataset in d ==> f in e)
    && (forall f :: f in c.sessions && f in e && c.sessions[f].snapshot.Some? ==> c.sessions[f].snapshot.value in s)
  }

  lemma PurgeSnapshots(c: Catalog, d: set<Id>, s: set<Id>, e: set<Id>)
    requires Removable(c, d, s, e) && SnapshotRowsOk(c.datasets, c.snapshots)
    ensures SnapshotRowsOk(Purge(c, d, s, e).datasets, Purge(c, d, s, e).snapshots)
  {
  }

  lemma PurgeSessions(c: Catalog, d: set<Id>, s: set<Id>, e: set<Id>)
    requires Removable(c, d, s, e) && SessionRowsOk(c.datasets, c.snapshots, c.sessions)
    ensures var p := Purge(c, d, s, e); SessionRowsOk(p.datasets, p.snapshots, p.sessions)
  {
  }

  lemma PurgeChunks(c: Catalog, d: set<Id>, s: set<Id>, e: set<Id>)
    requires Removable(c, d, s, e) && ChunkRowsOk(c.datasets, c.snapshots, c.sessions, c.chunks)
    ensures var p := Purge(c, d, s, e); ChunkRowsOk(p.datasets, p.snapshots, p.sessions, p.chunks)
  {
  }

  lemma PurgeOperations(c: Catalog, d: set<Id>, s: set<Id>, e: set<Id>)
    requires Removable(c, d, s, e)
    requires OperationRowsOk(c.datasets.Keys, c.snapshots, c.sessions.Keys, c.operations)
    ensures var p := Purge(c, d, s, e);
      OperationRowsOk(p.datasets.Keys, p.snapshots, p.sessions.Keys, p.operations)
  {
  }

  lemma PurgeUnique(c: Catalog, d: set<Id>, s: set<Id>, e: set<Id>)
    requires UniqueOk(c.datasets, c.snapshots, c.sessions)
    ensures var p := Purge(c, d, s, e); UniqueOk(p.datasets, p.snapshots, p.sessions)
  {
  }

  lemma PurgeStatus(c: Catalog, d: set<Id>, s: set<Id>, e: set<Id>)
    requires Removable(c, d, s, e) && StatusOk(c.snapshots, c.sessions) && RefsOk(c.snapshots, c.sessions)
    ensures var p := Purge(c, d, s, e); StatusOk(p.snapshots, p.sessions) && RefsOk(p.snapshots, p.sessions)
  {
    var p := Purge(c, d, s, e);
    forall q | q !in s && Referenceable(c.snapshots, c.sessions, q) ensures Referenceable(p.snapshots, p.sessions, q) {
    }
  }

  lemma PurgeLinks(c: Catalog, d: set<Id>, s: set<Id>, e: set<Id>)
    requires Removable(c, d, s, e) && LinksOk(c.snapshots)
    ensures LinksOk(Purge(c, d, s, e).snapshots)
    ensures var p := Purge(c, d, s, e);
      forall t :: t in p.snapshots ==> Chain(ParentsOf(p.snapshots), t) == Chain(ParentsOf(c.snapshots), t)
  {
    hide Acyclic;
    var p := Purge(c, d, s, e);
    assert ParentsOf(p.snapshots) == ParentsOf(c.snapshots) - s;
    RemoveRows(ParentsOf(c.snapshots), s);
  }

  lemma PurgeCatalog(c: Catalog, d: set<Id>, s: set<Id>, e: set<Id>)
    requires CatalogOk(c) && Removable(c, d, s, e)
    ensures CatalogOk(Purge(c, d, s, e))
  {
    hide SnapshotRowsOk, SessionRowsOk, ChunkRowsOk, UniqueOk, OperationRowsOk, StatusOk, RefsOk, LinksOk;
    hide Purge, Removable;
    PurgeSnapshots(c, d, s, e);
    PurgeSessions(c, d, s, e);
    PurgeChunks(c, d, s, e);
    PurgeOperations(c, d, s, e);
    PurgeUnique(c, d, s, e);
    PurgeStatus(c, d, s, e);
    PurgeLinks(c, d, s, e);
  }

  /** An upload whose own rows are not among those removed keeps all of them. */
  lemma PurgeSpares(l: Lib, c: Catalog, d: set<Id>, s: set<Id>, e: set<Id>, f: Id, u: Upload)
    requires Removable(c, d, s, e) && RowMatches(c, f, u) && RowsWritten(l, c, u.snap, f, u.req, u.parts)
    requires u.snap !in s && f !in e && u.d !in d
    ensures SameUploadRows(c, Purge(c, d, s, e), f, u)
  {
  }

  // ---- removals add up ----

  lemma PurgesAddRows(c: Catalog, s1: set<Id>, e1: set<Id>, s2: set<Id>, e2: set<Id>)
    ensures var two, one := Purge(Purge(c, {}, s1, e1), {}, s2, e2), Purge(c, {}, s1 + s2, e1 + e2);
      two.datasets == one.datasets && two.snapshots == one.snapshots
  {
  }

  lemma PurgesAddSessions(c: Catalog, s1: set<Id>, e1: set<Id>, s2: set<Id>, e2: set<Id>)
    ensures Purge(Purge(c, {}, s1, e1), {}, s2, e2).sessions == Purge(c, {}, s1 + s2, e1 + e2).sessions
  {
  }

  lemma PurgesAddChunks(c: Catalog, s1: set<Id>, e1: set<Id>, s2: set<Id>, e2: set<Id>)
    ensures Purge(Purge(c, {}, s1, e1), {}, s2, e2).chunks == Purge(c, {}, s1 + s2, e1 + e2).chunks
  {
  }

  lemma PurgesAddOperations(c: Catalog, s1: set<Id>, e1: set<Id>, s2: set<Id>, e2: set<Id>)
    ensures Purge(Purge(c, {}, s1, e1), {}, s2, e2).operations == Purge(c, {}, s1 + s2, e1 + e2).operations
  {
  }

  lemma PurgesAdd(c: Catalog, s1: set<Id>, e1: set<Id>, s2: set<Id>, e2: set<Id>)
    ensures Purge(Purge(c, {}, s1, e1), {}, s2, e2) == Purge(c, {}, s1 + s2, e1 + e2)
  {
    hide Purge;
    PurgesAddRows(c, s1, e1, s2, e2);
    PurgesAddSessions(c, s1, e1, s2, e2);
    PurgesAddChunks(c, s1, e1, s2, e2);
    PurgesAddOperations(c, s1, e1, s2, e2);
  }

  // ---- the DELETE statements are removals of this kind ----

  lemma SnapshotRemovable(c: Catalog, s: Id, e: set<Id>)
    requires !Blocked(c, {s}, e) && e <= SessionsOf(c, s)
    ensures Removable(c, {}, {s}, e)
  {
  }

  /** The two statements that close a snapshot deletion act as one removal, blocked by the same references. */
  lemma RemoveSnapshotIsPurge(c: Catalog, s: Id)
    ensures RemoveSnapshot(c, s) ==
      if Blocked(c, {s}, SessionsOf(c, s)) then None else Some(Purge(c, {}, {s}, SessionsOf(c, s)))
  {
    hide Purge, Blocked, SessionsOf;
    PurgesAdd(c, {}, SessionsOf(c, s), {s}, {});
    assert {} + {s} == {s} && SessionsOf(c, s) + {} == SessionsOf(c, s);
    SessionsOutOfTheWay(c, s);
  }

  lemma SessionsOutOfTheWay(c: Catalog, s: Id)
    ensures Blocked(DeleteSessions(c, SessionsOf(c, s)), {s}, {}) <==> Blocked(c, {s}, SessionsOf(c, s))
  {
    var e := SessionsOf(c, s);
    var c1 := DeleteSessions(c, e);
    assert c1.snapshots == c.snapshots;
    if f :| f in c1.sessions && c1.sessions[f].base == Some(s) {
      assert f in c.sessions && f !in e && c.sessions[f].base.value in {s};
    }
    if f :| f in c.sessions && f !in e && c.sessions[f].base == Some(s) {
      assert f in c1.sessions && f !in {} && c1.sessions[f].base.value in {s};
    }
  }

  /** A dataset deletion is never blocked: parents and bases stay within a dataset. */
  lemma DatasetRemovable(c: Catalog, d: Id)
    requires SnapshotRowsOk(c.datasets, c.snapshots) && SessionRowsOk(c.datasets, c.snapshots, c.sessions)
    ensures Removable(c, {d}, DatasetSnapshots(c, d), DatasetSessions(c, d))
  {
  }

  // ---- removals in the running system ----

  lemma PurgeCommitted(l: Lib, w: World, w': World, d: set<Id>, s: set<Id>, e: set<Id>)
    requires CatalogOk(w.cat) && CommittedOk(l, w) && Removable(w.cat, d, s, e)
    requires w'.cat == Purge(w.cat, d, s, e) && w'.store == w.store && w'.sent == w.sent
    ensures CommittedOk(l, w')
  {
    hide HoldsManifest, Holds, SameUploadRows, CatalogOk, RowsWritten;
    forall t | t in w'.cat.snapshots && w'.cat.snapshots[t].status == Committed
      ensures t in w.cat.snapshots && w.cat.snapshots[t].status == Committed
      ensures SameUploadRows(w.cat, w'.cat, w.sent[t].0, w.sent[t].1)
    {
      PurgeSpares(l, w.cat, d, s, e, w.sent[t].0, w.sent[t].1);
    }
    CommittedFrame(l, w, w', {});
  }

  lemma PurgeLive(l: Lib, w: World, w': World, d: set<Id>, s: set<Id>, e: set<Id>)
    requires LiveOk(l, w) && Removable(w.cat, d, s, e)
    requires forall f :: f in w.live ==> w.live[f].snap !in s
    requires w'.cat == Purge(w.cat, d, s, e) && w'.store == w.store && w'.live == w.live
    ensures LiveOk(l, w')
  {
    hide HoldsManifest, Holds, SameUploadRows, RowsWritten, AtOk;
    forall f | f in w.live
      ensures SameUploadRows(w.cat, w'.cat, f, w.live[f]) && ParentStays(w.cat, w'.cat, w.live[f].snap)
    {
      PurgeSpares(l, w.cat, d, s, e, f, w.live[f]);
    }
    LivesFrame(l, w, w', {});
  }
}
