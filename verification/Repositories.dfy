/** The catalog as the service uses it (internal/catalog/repository.go): one object whose rows its methods update,
    statement by statement, with transactions that roll back. */
module Repositories {
  import opened Base
  import opened Manifests
  import opened Catalogs
  import opened Lineage
  import opened Streams
  import opened Machine
  import opened Invariant
  import opened SafetyStart

  /** The snapshot of a dataset, both given by name. */
  ghost predicate Named(c: Catalog, ds: DatasetName, name: string, s: Id) {
    && s in c.snapshots && c.snapshots[s].name == name
    && c.snapshots[s].dataset in c.datasets && c.datasets[c.snapshots[s].dataset] == ds
  }

  ghost predicate UsableBase(c: Catalog, ds: DatasetName, name: string, limit: int, b: Id)
    requires Acyclic(ParentsOf(c.snapshots))
  {
    && Named(c, ds, name, b) && c.snapshots[b].status == Committed
    && (limit > 0 ==> |Chain(ParentsOf(c.snapshots), b)| + 1 <= limit)
  }

  /** When startUpload turns a request down: a base that is missing, not committed or too deep, or a snapshot of
      that name that is neither failed nor aborted or that something still refers to. */
  ghost predicate Refuses(c: Catalog, req: Request, limit: int)
    requires Acyclic(ParentsOf(c.snapshots))
  {
    || (req.base != "" && forall b :: !UsableBase(c, req.ds, req.base, limit, b))
    || (exists s :: Named(c, req.ds, req.name, s)
                    && (c.snapshots[s].status !in {Failed, Aborted} || Blocked(c, {s}, {})))
  }

  ghost predicate Resolves(c: Catalog, d: Id, ds: DatasetName) {
    if d in c.datasets then c.datasets[d] == ds else ds !in c.datasets.Values
  }

  /** Looking a snapshot up by the resolved dataset's identifier is looking it up by name. */
  lemma NamedInDataset(c: Catalog, d: Id, ds: DatasetName, name: string, s: Id)
    requires CatalogOk(c) && Resolves(c, d, ds)
    ensures Named(c, ds, name, s) <==> s in c.snapshots && c.snapshots[s].dataset == d && c.snapshots[s].name == name
  {
    hide SessionRowsOk, ChunkRowsOk, OperationRowsOk, StatusOk, RefsOk, LinksOk;
  }

  ghost predicate BaseFound(c: Catalog, d: Id, req: Request, limit: int, base: Option<Id>)
    requires Acyclic(ParentsOf(c.snapshots))
  {
    match base
    case None => req.base == ""
    case Some(b) => req.base != "" && UsableBase(c, req.ds, req.base, limit, b) && c.snapshots[b].dataset == d
  }

  ghost predicate PreviousFound(c: Catalog, d: Id, name: string, previous: Option<Id>) {
    match previous
    case None => forall s :: s in c.snapshots ==> !(c.snapshots[s].dataset == d && c.snapshots[s].name == name)
    case Some(p) =>
      && p in c.snapshots && c.snapshots[p].dataset == d && c.snapshots[p].name == name
      && c.snapshots[p].status in {Failed, Aborted} && !Blocked(c, {p}, {})
  }

  lemma NotRefused(c: Catalog, d: Id, req: Request, limit: int, base: Option<Id>, previous: Option<Id>)
    requires CatalogOk(c) && Resolves(c, d, req.ds)
    requires BaseFound(c, d, req, limit, base) && PreviousFound(c, d, req.name, previous)
    ensures !Refuses(c, req, limit)
  {
    hide CatalogOk, Blocked, Chain, Acyclic;
    forall s | Named(c, req.ds, req.name, s)
      ensures c.snapshots[s].status in {Failed, Aborted} && !Blocked(c, {s}, {})
    {
      NamedInDataset(c, d, req.ds, req.name, s);
      SameName(c, d, req.name, s, previous);
    }
  }

  lemma SameName(c: Catalog, d: Id, name: string, s: Id, previous: Option<Id>)
    requires CatalogOk(c) && PreviousFound(c, d, name, previous)
    requires s in c.snapshots && c.snapshots[s].dataset == d && c.snapshots[s].name == name
    ensures previous == Some(s)
  {
    hide SessionRowsOk, ChunkRowsOk, OperationRowsOk, StatusOk, RefsOk, LinksOk, SnapshotRowsOk, Blocked;
  }

  lemma OnlyUsableBase(c: Catalog, d: Id, req: Request, limit: int, found: Option<Id>)
    requires CatalogOk(c) && Resolves(c, d, req.ds) && req.base != ""
    requires match found
      case Some(i) => i in c.snapshots && c.snapshots[i].dataset == d && c.snapshots[i].name == req.base
      case None => forall i :: i in c.snapshots ==> !(c.snapshots[i].dataset == d && c.snapshots[i].name == req.base)
    requires found.Some? ==> !UsableBase(c, req.ds, req.base, limit, found.value)
    ensures Refuses(c, req, limit)
  {
    hide SessionRowsOk, ChunkRowsOk, OperationRowsOk, StatusOk, RefsOk, SnapshotRowsOk, Blocked, Chain, Acyclic;
    forall b ensures !UsableBase(c, req.ds, req.base, limit, b) {
      NamedInDataset(c, d, req.ds, req.base, b);
    }
  }

  function DatasetAdded(c: Catalog, d: Id, ds: DatasetName): Catalog {
    c.(datasets := c.datasets[d := ds])
  }

  /** Creating or touching the dataset row changes no lookup of snapshots, and no verdict. */
  lemma DatasetAddedOk(c: Catalog, issued: set<Id>, d: Id, ds: DatasetName)
    requires CatalogOk(c) && Resolves(c, d, ds) && (d !in c.datasets ==> d !in issued) && c.datasets.Keys <= issued
    requires c.snapshots.Keys <= issued && c.sessions.Keys <= issued && c.operations.Keys <= issued
    ensures CatalogOk(DatasetAdded(c, d, ds)) && Resolves(DatasetAdded(c, d, ds), d, ds)
  {
    hide CatalogOk;
    DatasetCatalog(INITIAL.(cat := c, issued := issued), d, ds);
  }

  lemma SameVerdict(c: Catalog, d: Id, req: Request, limit: int)
    requires CatalogOk(c) && Resolves(c, d, req.ds) && CatalogOk(DatasetAdded(c, d, req.ds))
    ensures Refuses(DatasetAdded(c, d, req.ds), req, limit) <==> Refuses(c, req, limit)
  {
    hide SessionRowsOk, ChunkRowsOk, OperationRowsOk, StatusOk, RefsOk, UniqueOk, SnapshotRowsOk, Acyclic, Chain, Named;
    var c0 := DatasetAdded(c, d, req.ds);
    forall name, s ensures Named(c0, req.ds, name, s) <==> Named(c, req.ds, name, s) {
      NamedInDataset(c, d, req.ds, name, s);
      NamedInDataset(c0, d, req.ds, name, s);
    }
    SameBlocked(c, c0);
    assert forall b :: UsableBase(c0, req.ds, req.base, limit, b) <==> UsableBase(c, req.ds, req.base, limit, b);
    hide UsableBase;
  }

  lemma SameBlocked(a: Catalog, b: Catalog)
    requires a.snapshots == b.snapshots && a.sessions == b.sessions
    ensures forall s, e :: Blocked(a, s, e) <==> Blocked(b, s, e)
  {
  }

  /** The lookups, made on the catalog with the dataset row in place, are the ones the machine's guard names. */
  lemma LookupsAdmit(c: Catalog, issued: set<Id>, t: Start)
    requires Acyclic(ParentsOf(c.snapshots)) && Resolves(c, t.d, t.req.ds) && (t.d !in c.datasets ==> t.d !in issued)
    requires BaseFound(DatasetAdded(c, t.d, t.req.ds), t.d, t.req, t.limit, t.base)
    requires PreviousFound(DatasetAdded(c, t.d, t.req.ds), t.d, t.req.name, t.previous)
    requires t.snap !in issued && t.sess !in issued && t.op !in issued
    requires t.snap != t.sess && t.snap != t.op && t.sess != t.op && t.d !in {t.snap, t.sess, t.op}
    ensures Admits(c, issued, t)
  {
    hide Acyclic, Chain, Blocked;
    SameBlocked(c, DatasetAdded(c, t.d, t.req.ds));
  }

  // ---- ReconcileStaleUploads ----

  function SnapshotFailed(c: Catalog, e: Id): Catalog {
    if e in c.sessions && c.sessions[e].snapshot.Some?
    then SetSnapshotStatus(c, c.sessions[e].snapshot.value, Failed) else c
  }

  function ReconciledOne(c: Catalog, e: Id): Catalog {
    FailOperationsOf(SetSessionStatus(SnapshotFailed(c, e), e, SessionFailed), e)
  }

  function Reconciled(c: Catalog, stale: seq<Id>): Catalog {
    if stale == [] then c else ReconciledOne(Reconciled(c, stale[..|stale| - 1]), stale[|stale| - 1])
  }

  /** Stopped before the first, second or third statement for a session. */
  ghost predicate PartlyReconciled(c: Catalog, e: Id, left: Catalog) {
    left in {c, SnapshotFailed(c, e), SetSessionStatus(SnapshotFailed(c, e), e, SessionFailed)}
  }

  datatype Reconciliation = Reconciliation(failed: nat, operation: Option<Id>)

  /** CreateOperation for the reconciliation itself. */
  function WithReconciliation(c: Catalog, op: Id): Catalog {
    c.(operations := c.operations[op := Operation(ReconciliationOp, Running, None, None, None)])
  }

  /** Stopped with so many sessions reconciled and the next one partly; or all of them, the operation left running. */
  ghost predicate StoppedAfter(c: Catalog, op: Id, stale: seq<Id>, done: nat, left: Catalog) {
    && done <= |stale|
    && var sofar := Reconciled(WithReconciliation(c, op), stale[..done]);
       if done == |stale| then left == sofar else PartlyReconciled(sofar, stale[done], left)
  }

  lemma {:induction false} Outside(s: set<Id>) returns (id: Id)
    ensures id !in s
  {
    id := Bound(s);
  }

  lemma {:induction false} Bound(s: set<Id>) returns (top: Id)
    ensures forall x :: x in s ==> x < top
    decreases |s|
  {
    if s == {} {
      top := 0;
    } else {
      var x :| x in s;
      var rest := Bound(s - {x});
      top := if rest <= x then x + 1 else rest;
      assert s == (s - {x}) + {x};
    }
  }

  class Repository {
    var cat: Catalog
    /** Every identifier that has been used in a row. */
    var issued: set<Id>
    /** Statements so far, and which of them the database fails. */
    var calls: nat
    const broken: nat -> bool

    constructor (broken: nat -> bool)
      ensures cat == EMPTY && issued == {} && calls == 0 && this.broken == broken
    {
      cat, issued, calls := EMPTY, {}, 0;
      this.broken := broken;
    }

    ghost predicate Valid()
      reads this
    {
      && CatalogOk(cat)
      && cat.datasets.Keys <= issued && cat.snapshots.Keys <= issued
      && cat.sessions.Keys <= issued && cat.operations.Keys <= issued
    }

    method Statement() returns (ok: bool)
      modifies this`calls
      ensures calls == old(calls) + 1 && (ok <==> !broken(old(calls)))
    {
      ok := !broken(calls);
      calls := calls + 1;
    }

    /** NewID: an identifier that no row has ever had. */
    method NewId() returns (id: Id)
      modifies this`issued
      ensures id !in old(issued) && issued == old(issued) + {id}
    {
      assert exists i: Id :: i !in issued by { var i := Outside(issued); }
      id :| id !in issued;
      issued := issued + {id};
    }

    method ResolveDataset(ds: DatasetName) returns (d: Id)
      modifies this`cat, this`issued
      ensures cat == old(cat).(datasets := old(cat).datasets[d := ds]) && issued == old(issued) + {d}
      ensures if d in old(cat).datasets then old(cat).datasets[d] == ds
              else d !in old(issued) && ds !in old(cat).datasets.Values
      requires cat.datasets.Keys <= issued
    {
      if i :| i in cat.datasets && cat.datasets[i] == ds {
        assert cat.datasets[i := ds] == cat.datasets;
        assert issued + {i} == issued;
        return i;
      }
      d := NewId();
      cat := cat.(datasets := cat.datasets[d := ds]);
    }

    method GetSnapshotByName(d: Id, name: string) returns (s: Option<Id>)
      ensures match s
        case Some(i) => i in cat.snapshots && cat.snapshots[i].dataset == d && cat.snapshots[i].name == name
        case None => forall i :: i in cat.snapshots ==> !(cat.snapshots[i].dataset == d && cat.snapshots[i].name == name)
    {
      if i :| i in cat.snapshots && cat.snapshots[i].dataset == d && cat.snapshots[i].name == name {
        return Some(i);
      }
      return None;
    }

    /** ListSnapshotRestoreChain: from the target up its parent links, returned oldest first. */
    method RestoreChain(s: Id) returns (chain: seq<Id>)
      requires Acyclic(ParentsOf(cat.snapshots))
      ensures chain == Chain(ParentsOf(cat.snapshots), s)
    {
      hide Acyclic;
      ghost var p := ParentsOf(cat.snapshots);
      var next := Some(s);
      chain := [];
      while next.Some? && next.value in cat.snapshots
        invariant Chain(p, s) == (if next.Some? then Chain(p, next.value) else []) + chain
        decreases if next.Some? then Measure(p, next.value) else 0
      {
        chain := [next.value] + chain;
        next := cat.snapshots[next.value].parent;
      }
    }

    method FindBase(d: Id, req: Request, limit: int) returns (base: Result<Option<Id>>)
      requires CatalogOk(cat) && Resolves(cat, d, req.ds)
      ensures match base
        case Ok(b) => BaseFound(cat, d, req, limit, b)
        case Err => Refuses(cat, req, limit)
    {
      hide SessionRowsOk, ChunkRowsOk, OperationRowsOk, StatusOk, RefsOk, UniqueOk, Blocked, Refuses, Acyclic;
      hide SnapshotRowsOk, Chain;
      if req.base == "" {
        return Ok(None);
      }
      var found := GetSnapshotByName(d, req.base);
      if found.None? || cat.snapshots[found.value].status != Committed {
        OnlyUsableBase(cat, d, req, limit, found);
        return Err;
      }
      NamedInDataset(cat, d, req.ds, req.base, found.value);
      if limit > 0 {
        var chain := RestoreChain(found.value);
        if |chain| + 1 > limit {
          OnlyUsableBase(cat, d, req, limit, found);
          return Err;
        }
      }
      return Ok(found);
    }

    /** A failed or aborted snapshot of the same name makes way for the retry. */
    method ClearPrevious(d: Id, req: Request, limit: int) returns (previous: Result<Option<Id>>)
      requires CatalogOk(cat) && Resolves(cat, d, req.ds)
      modifies this`cat
      ensures match previous
        case Err => cat == old(cat) && Refuses(cat, req, limit)
        case Ok(p) =>
          && PreviousFound(old(cat), d, req.name, p)
          && cat == if p.Some? then Purge(old(cat), {}, {p.value}, {}) else old(cat)
    {
      hide CatalogOk, Purge, Blocked, UsableBase;
      var found := GetSnapshotByName(d, req.name);
      if found.None? {
        return Ok(None);
      }
      NamedInDataset(cat, d, req.ds, req.name, found.value);
      if cat.snapshots[found.value].status !in {Failed, Aborted} {
        return Err;
      }
      var deleted := DeleteSnapshot(cat, found.value);
      if deleted.None? {
        return Err;
      }
      cat := deleted.value;
      return Ok(found);
    }

    /** startUpload, inside its transaction. */
    method TryStart(req: Request, limit: int) returns (t: Option<Start>)
      requires Valid()
      modifies this`cat, this`issued
      ensures t.None? <==> Refuses(old(cat), req, limit)
      ensures t.Some? ==>
        && t.value.req == req && t.value.limit == limit && Admits(old(cat), old(issued), t.value)
        && cat == StartRows(old(cat), t.value)
        && issued == old(issued) + {t.value.d, t.value.snap, t.value.sess, t.value.op}
    {
      hide CatalogOk, Purge, Refuses, Admits, BaseFound, PreviousFound, Acyclic, Chain;
      ghost var c, known := cat, issued;
      var d := ResolveDataset(req.ds);
      ghost var c0 := DatasetAdded(c, d, req.ds);
      DatasetAddedOk(c, known, d, req.ds);
      SameVerdict(c, d, req, limit);
      var base := FindBase(d, req, limit);
      if base.Err? {
        return None;
      }
      var previous := ClearPrevious(d, req, limit);
      if previous.Err? {
        return None;
      }
      NotRefused(c0, d, req, limit, base.value, previous.value);
      var snap := NewId();
      var sess := NewId();
      var op := NewId();
      var start := Start(d, req, base.value, previous.value, snap, sess, op, limit);
      assert Acyclic(ParentsOf(c.snapshots)) by { OkAcyclic(c); }
      LookupsAdmit(c, known, start);
      var snapshot := Snapshot(d, req.name, base.value, None, Uploading, 0, "", "", "", 0);
      var session := Session(d, Some(snap), req.name, base.value, SessionUploading, req.chunkSize, None);
      cat := cat.(snapshots := cat.snapshots[snap := snapshot]);
      cat := cat.(sessions := cat.sessions[sess := session]);
      cat := cat.(operations := cat.operations[op := Operation(UploadOp, Running, Some(d), Some(snap), Some(sess))]);
      return Some(start);
    }

    /** StartUpload: the whole of startUpload in one transaction. A refusal or a database error leaves no trace. */
    method StartUpload(req: Request, limit: int) returns (t: Option<Start>)
      requires Valid()
      modifies this`cat, this`issued, this`calls
      ensures t.None? ==> cat == old(cat) && issued == old(issued)
      ensures t.Some? ==>
        && t.value.req == req && t.value.limit == limit && Admits(old(cat), old(issued), t.value)
        && cat == StartRows(old(cat), t.value)
        && issued == old(issued) + {t.value.d, t.value.snap, t.value.sess, t.value.op}
      ensures !broken(old(calls)) ==> (t.None? <==> Refuses(old(cat), req, limit))
      ensures broken(old(calls)) ==> t.None?
    {
      hide CatalogOk, StartRows, Refuses, Admits;
      var before, known := cat, issued;
      var up := Statement();
      if !up {
        return None;
      }
      t := TryStart(req, limit);
      if t.None? {
        cat, issued := before, known;
      }
    }

    /** AddVerifiedChunk: rejected by the schema or by a failing database, or one more row. */
    method AddVerifiedChunk(s: Id, i: nat, row: ChunkRow) returns (ok: bool)
      modifies this`cat, this`calls
      ensures ok <==> !broken(old(calls)) && InsertChunk(old(cat), s, i, row).Some?
      ensures cat == if ok then InsertChunk(old(cat), s, i, row).value else old(cat)
    {
      ok := Statement();
      if s !in cat.snapshots || row.session !in cat.sessions || (s, i) in cat.chunks {
        ok := false;
      }
      if exists k :: k in cat.chunks && cat.chunks[k].key == row.key {
        ok := false;
      }
      if ok {
        cat := cat.(chunks := cat.chunks[(s, i) := row]);
      }
    }

    /** UpdateUploadProgress and UpdateUploadStatus. */
    method UpdateUploadStatus(e: Id, status: SessionStatus) returns (ok: bool)
      modifies this`cat, this`calls
      ensures ok <==> !broken(old(calls))
      ensures cat == if ok then SetSessionStatus(old(cat), e, status) else old(cat)
    {
      ok := Statement();
      if ok && e in cat.sessions {
        cat := cat.(sessions := cat.sessions[e := cat.sessions[e].(status := status)]);
      }
    }

    method SetUploadManifestObjectKey(e: Id, key: Key) returns (ok: bool)
      modifies this`cat, this`calls
      ensures ok <==> !broken(old(calls))
      ensures cat == if ok then SetSessionManifestKey(old(cat), e, key) else old(cat)
    {
      ok := Statement();
      if ok && e in cat.sessions {
        var row := cat.sessions[e].(status := CommittingCatalog, manifestKey := Some(key));
        cat := cat.(sessions := cat.sessions[e := row]);
      }
    }

    /** CommitUpload: three statements in one transaction; all of them or none. */
    method CommitUpload(s: Id, e: Id, o: Id, key: Key, facts: Facts) returns (ok: bool)
      modifies this`cat, this`calls
      ensures (exists i :: old(calls) <= i < old(calls) + 3 && broken(i)) ==> !ok
      ensures (forall i :: old(calls) <= i < old(calls) + 3 ==> !broken(i)) ==> ok
      ensures cat == if ok then CommitStatements(old(cat), s, e, o, key, facts) else old(cat)
    {
      hide CommitSnapshot, CompleteSession;
      var before := cat;
      ok := Statement();
      if ok {
        StoreSnapshotRow(s, key, facts);
        ok := Statement();
      }
      if ok {
        CompleteSessionRow(e, key);
        ok := Statement();
      }
      if ok {
        if o in cat.operations {
          cat := cat.(operations := cat.operations[o := cat.operations[o].(status := Succeeded)]);
        }
      } else {
        cat := before;
      }
    }

    /** The first two statements of CommitUpload. */
    method StoreSnapshotRow(s: Id, key: Key, facts: Facts)
      modifies this`cat
      ensures cat == CommitSnapshot(old(cat), s, key, facts)
    {
      if s in cat.snapshots {
        var row := cat.snapshots[s].(status := Committed, manifestKey := Some(key), storedBytes := facts.bytes,
                                     streamSha := facts.sha, fromGuid := facts.fromGuid, toGuid := facts.toGuid,
                                     chunkCount := facts.chunks);
        cat := cat.(snapshots := cat.snapshots[s := row]);
      }
    }

    method CompleteSessionRow(e: Id, key: Key)
      modifies this`cat
      ensures cat == CompleteSession(old(cat), e, key)
    {
      if e in cat.sessions {
        cat := cat.(sessions := cat.sessions[e := cat.sessions[e].(status := Complete, manifestKey := Some(key))]);
      }
    }

    method FailUpload(s: Id, e: Id, o: Id) returns (ok: bool)
      modifies this`cat, this`calls
      ensures (forall i :: old(calls) <= i < old(calls) + 3 ==> !broken(i)) ==> ok
      ensures cat == if ok then FailStatements(old(cat), s, e, o) else old(cat)
    {
      var before := cat;
      ok := Statement();
      if ok {
        if s in cat.snapshots {
          cat := cat.(snapshots := cat.snapshots[s := cat.snapshots[s].(status := Failed)]);
        }
        ok := Statement();
      }
      if ok {
        if e in cat.sessions {
          cat := cat.(sessions := cat.sessions[e := cat.sessions[e].(status := SessionFailed)]);
        }
        ok := Statement();
      }
      if ok {
        if o in cat.operations {
          cat := cat.(operations := cat.operations[o := cat.operations[o].(status := OpFailed)]);
        }
      } else {
        cat := before;
      }
    }

    /** FailOperationByUploadSession. */
    method FailOperations(e: Id)
      modifies this`cat
      ensures cat == FailOperationsOf(old(cat), e)
    {
      var rows := cat.operations;
      var open := map o | o in rows && rows[o].session == Some(e) && rows[o].status in {Queued, Running} ::
                    rows[o].(status := OpFailed);
      cat := cat.(operations := rows + open);
      assert cat.operations == FailOperationsOf(old(cat), e).operations;
    }

    /** The three statements for one listed session. */
    method ReconcileOne(e: Id) returns (ok: bool)
      modifies this`cat, this`calls
      ensures if ok then cat == ReconciledOne(old(cat), e) else PartlyReconciled(old(cat), e, cat)
      ensures (forall n :: !broken(n)) ==> ok
    {
      hide FailOperationsOf;
      ok := Statement();
      if !ok { return; }
      if e in cat.sessions && cat.sessions[e].snapshot.Some? {
        var s := cat.sessions[e].snapshot.value;
        if s in cat.snapshots {
          cat := cat.(snapshots := cat.snapshots[s := cat.snapshots[s].(status := Failed)]);
        }
      }
      ghost var first := SnapshotFailed(old(cat), e);
      assert cat == first;
      ok := Statement();
      if !ok { return; }
      if e in cat.sessions {
        cat := cat.(sessions := cat.sessions[e := cat.sessions[e].(status := SessionFailed)]);
      }
      ghost var second := SetSessionStatus(first, e, SessionFailed);
      assert cat == second;
      ok := Statement();
      if !ok { return; }
      FailOperations(e);
    }

    /** ReconcileStaleUploads: nothing for an empty list; otherwise an operation of its own, the listed sessions one
        after the other, and the operation's end. When a statement fails the method stops there. */
    method ReconcileStaleUploads(stale: seq<Id>) returns (res: Result<Reconciliation>)
      modifies this`cat, this`calls, this`issued
      ensures old(issued) <= issued
      ensures stale == [] ==> res == Ok(Reconciliation(0, None)) && cat == old(cat) && issued == old(issued)
      ensures stale != [] && res.Ok? ==>
        && res.value.failed == |stale| && res.value.operation.Some? && res.value.operation.value !in old(issued)
        && cat == SetOperationStatus(Reconciled(WithReconciliation(old(cat), res.value.operation.value), stale),
                                     res.value.operation.value, Succeeded)
      ensures res.Err? ==>
        || cat == old(cat)
        || exists op, done :: op !in old(issued) && StoppedAfter(old(cat), op, stale, done, cat)
      ensures (forall n :: !broken(n)) ==> res.Ok?
    {
      hide PartlyReconciled, ReconciledOne;
      if stale == [] {
        return Ok(Reconciliation(0, None));
      }
      ghost var c := cat;
      var op := NewId();
      var ok := Statement();
      if !ok {
        return Err;
      }
      cat := cat.(operations := cat.operations[op := Operation(ReconciliationOp, Running, None, None, None)]);
      ghost var c0 := cat;
      assert stale[..0] == [];
      for done := 0 to |stale|
        invariant cat == Reconciled(c0, stale[..done]) && issued == old(issued) + {op}
      {
        ok := ReconcileOne(stale[done]);
        if !ok {
          assert StoppedAfter(c, op, stale, done, cat);
          return Err;
        }
        assert stale[..done + 1][..done] == stale[..done];
      }
      assert stale[..|stale|] == stale;
      ok := Statement();
      if !ok {
        assert StoppedAfter(c, op, stale, |stale|, cat);
        return Err;
      }
      if op in cat.operations {
        cat := cat.(operations := cat.operations[op := cat.operations[op].(status := Succeeded)]);
      }
      return Ok(Reconciliation(|stale|, Some(op)));
    }
  }

  /** The reconciliation's own operation refers to nothing, so it and the sessions do not meet. */
  lemma {:induction false} ReconciliationApart(c: Catalog, op: Id, stale: seq<Id>)
    requires op !in c.operations
    ensures op !in Reconciled(c, stale).operations
    ensures Reconciled(WithReconciliation(c, op), stale) == WithReconciliation(Reconciled(c, stale), op)
  {
    hide ReconciledOne;
    if stale != [] {
      var k := |stale| - 1;
      ReconciliationApart(c, op, stale[..k]);
      OneApart(Reconciled(c, stale[..k]), op, stale[k]);
    }
  }

  lemma OneApart(c: Catalog, op: Id, e: Id)
    requires op !in c.operations
    ensures op !in ReconciledOne(c, e).operations
    ensures ReconciledOne(WithReconciliation(c, op), e) == WithReconciliation(ReconciledOne(c, e), op)
  {
    hide SnapshotFailed, SetSessionStatus, FailOperationsOf, WithReconciliation;
    var c1 := SnapshotFailed(c, e);
    RowsApart(c, op, e);
    RowsApart(c1, op, e);
    OperationsApart(SetSessionStatus(c1, e, SessionFailed), op, e);
  }

  lemma RowsApart(c: Catalog, op: Id, e: Id)
    ensures SnapshotFailed(WithReconciliation(c, op), e) == WithReconciliation(SnapshotFailed(c, e), op)
    ensures SetSessionStatus(WithReconciliation(c, op), e, SessionFailed)
         == WithReconciliation(SetSessionStatus(c, e, SessionFailed), op)
    ensures SnapshotFailed(c, e).operations == c.operations
    ensures SetSessionStatus(c, e, SessionFailed).operations == c.operations
  {
  }

  lemma OperationsApart(c: Catalog, op: Id, e: Id)
    requires op !in c.operations
    ensures op !in FailOperationsOf(c, e).operations
    ensures FailOperationsOf(WithReconciliation(c, op), e) == WithReconciliation(FailOperationsOf(c, e), op)
  {
    assert FailOperationsOf(WithReconciliation(c, op), e).operations
        == WithReconciliation(FailOperationsOf(c, e), op).operations;
  }

  lemma OkAcyclic(c: Catalog)
    requires CatalogOk(c)
    ensures Acyclic(ParentsOf(c.snapshots))
  {
  }
}
