/** Startup reconciliation (internal/catalog/repository.go, cmd/zfs-s3nd/main.go): what the loop over the stale
    sessions does to the rows, and that it is the machine's startup. */
module Startup {
  import opened Base
  import opened Manifests
  import opened Catalogs
  import opened Machine
  import opened Repositories

  predicate SnapshotListed(sessions: map<Id, Session>, stale: seq<Id>, s: Id) {
    exists e :: e in sessions && e in stale && sessions[e].snapshot == Some(s)
  }

  predicate OperationListed(o: Operation, stale: seq<Id>) {
    o.session.Some? && o.session.value in stale && o.status in {Queued, Running}
  }

  ghost predicate SessionsFailed(a: Catalog, b: Catalog, stale: seq<Id>) {
    b.sessions.Keys == a.sessions.Keys && forall e :: e in a.sessions ==>
      b.sessions[e] == if e in stale then a.sessions[e].(status := SessionFailed) else a.sessions[e]
  }

  ghost predicate SnapshotsFailed(a: Catalog, b: Catalog, stale: seq<Id>) {
    b.snapshots.Keys == a.snapshots.Keys && forall s :: s in a.snapshots ==>
      b.snapshots[s] == if SnapshotListed(a.sessions, stale, s) then a.snapshots[s].(status := Failed) else a.snapshots[s]
  }

  ghost predicate OperationsFailed(a: Catalog, b: Catalog, stale: seq<Id>) {
    b.operations.Keys == a.operations.Keys && forall o :: o in a.operations ==>
      b.operations[o] ==
        if OperationListed(a.operations[o], stale) then a.operations[o].(status := OpFailed) else a.operations[o]
  }

  /** The listed sessions and their snapshots are failed, so are those of their operations that were queued or
      running, and every other row is as it was. */
  ghost predicate AsReconciled(a: Catalog, b: Catalog, stale: seq<Id>) {
    && b.datasets == a.datasets && b.chunks == a.chunks
    && SessionsFailed(a, b, stale) && SnapshotsFailed(a, b, stale) && OperationsFailed(a, b, stale)
  }

  lemma OneMoreSession(a: Catalog, b: Catalog, stale: seq<Id>, e: Id)
    requires SessionsFailed(a, b, stale)
    ensures SessionsFailed(a, SetSessionStatus(b, e, SessionFailed), stale + [e])
  {
  }

  lemma ListedSnoc(sessions: map<Id, Session>, stale: seq<Id>, e: Id, s: Id)
    ensures SnapshotListed(sessions, stale + [e], s) <==>
      SnapshotListed(sessions, stale, s) || (e in sessions && sessions[e].snapshot == Some(s))
  {
    var more := stale + [e];
    if f :| f in sessions && f in stale && sessions[f].snapshot == Some(s) {
      assert f in more;
    }
    if e in sessions && sessions[e].snapshot == Some(s) {
      assert e in more;
    }
  }

  lemma OneMoreSnapshot(a: Catalog, b: Catalog, stale: seq<Id>, e: Id)
    requires SessionsFailed(a, b, stale) && SnapshotsFailed(a, b, stale)
    ensures SnapshotsFailed(a, SnapshotFailed(b, e), stale + [e])
  {
    hide SnapshotListed;
    assert e in b.sessions ==> b.sessions[e].snapshot == a.sessions[e].snapshot;
    forall s | s in a.snapshots
      ensures SnapshotListed(a.sessions, stale + [e], s) <==>
        SnapshotListed(a.sessions, stale, s) || (e in a.sessions && a.sessions[e].snapshot == Some(s))
    {
      ListedSnoc(a.sessions, stale, e, s);
    }
  }

  lemma OneMoreOperation(a: Catalog, b: Catalog, stale: seq<Id>, e: Id)
    requires OperationsFailed(a, b, stale)
    ensures OperationsFailed(a, FailOperationsOf(b, e), stale + [e])
  {
  }

  lemma SnapshotFrame(c: Catalog, e: Id)
    ensures var b := SnapshotFailed(c, e);
      b.datasets == c.datasets && b.chunks == c.chunks && b.sessions == c.sessions && b.operations == c.operations
  {
  }

  lemma SessionFrame(c: Catalog, e: Id)
    ensures var b := SetSessionStatus(c, e, SessionFailed);
      b.datasets == c.datasets && b.chunks == c.chunks && b.snapshots == c.snapshots && b.operations == c.operations
  {
  }

  lemma OneMore(a: Catalog, b: Catalog, stale: seq<Id>, e: Id)
    requires AsReconciled(a, b, stale)
    ensures AsReconciled(a, ReconciledOne(b, e), stale + [e])
  {
    hide SessionsFailed, SnapshotsFailed, OperationsFailed, SnapshotFailed, SetSessionStatus;
    var b1 := SnapshotFailed(b, e);
    var b2 := SetSessionStatus(b1, e, SessionFailed);
    SnapshotFrame(b, e);
    SessionFrame(b1, e);
    OneMoreSnapshot(a, b, stale, e);
    SameSnapshotsFailed(a, b1, ReconciledOne(b, e), stale + [e]);
    assert SessionsFailed(a, b1, stale) by { SameSessionsFailed(a, b, b1, stale); }
    OneMoreSession(a, b1, stale, e);
    SameSessionsFailed(a, b2, ReconciledOne(b, e), stale + [e]);
    assert OperationsFailed(a, b2, stale) by { SameOperationsFailed(a, b, b2, stale); }
    OneMoreOperation(a, b2, stale, e);
  }

  lemma SameSnapshotsFailed(a: Catalog, b: Catalog, c: Catalog, stale: seq<Id>)
    requires SnapshotsFailed(a, b, stale) && c.snapshots == b.snapshots
    ensures SnapshotsFailed(a, c, stale)
  {
  }

  lemma SameSessionsFailed(a: Catalog, b: Catalog, c: Catalog, stale: seq<Id>)
    requires SessionsFailed(a, b, stale) && c.sessions == b.sessions
    ensures SessionsFailed(a, c, stale)
  {
  }

  lemma SameOperationsFailed(a: Catalog, b: Catalog, c: Catalog, stale: seq<Id>)
    requires OperationsFailed(a, b, stale) && c.operations == b.operations
    ensures OperationsFailed(a, c, stale)
  {
  }

  /** What the loop over the listed sessions does to every row. */
  lemma {:induction false} ReconciledRows(c: Catalog, stale: seq<Id>)
    ensures AsReconciled(c, Reconciled(c, stale), stale)
  {
    hide AsReconciled, ReconciledOne;
    if stale == [] {
      NoneFailed(c);
    } else {
      var k := |stale| - 1;
      ReconciledRows(c, stale[..k]);
      OneMore(c, Reconciled(c, stale[..k]), stale[..k], stale[k]);
      assert stale == stale[..k] + [stale[k]];
    }
  }

  lemma NoneFailed(c: Catalog)
    ensures AsReconciled(c, c, [])
  {
  }

  // ---- the loop is the machine's startup ----

  function ReconcileSteps(n: nat): seq<Step> {
    if n == 0 then [] else [ReconcileSnapshot, ReconcileSession, ReconcileOperation] + ReconcileSteps(n - 1)
  }

  lemma {:induction false} ReconciledForward(c: Catalog, stale: seq<Id>)
    requires stale != []
    ensures Reconciled(c, stale) == Reconciled(ReconciledOne(c, stale[0]), stale[1..])
  {
    hide ReconciledOne;
    var k := |stale| - 1;
    if k == 0 {
      assert stale[..0] == [] && stale[1..] == [];
    } else {
      ReconciledForward(c, stale[..k]);
      assert stale[..k][1..] == stale[1..][..k - 1];
      assert stale[1..][k - 1] == stale[k];
    }
  }

  function WorldReconciling(w: World, c: Catalog, todo: seq<Id>): World {
    w.(cat := c, mode := Reconciling(todo, AtSnapshot))
  }

  lemma StatementStep(l: Lib, w: World)
    requires w.mode.Reconciling? && w.mode.todo != []
    ensures w.mode.at == AtSnapshot ==>
      Enabled(l, w, ReconcileSnapshot) && Apply(l, w, ReconcileSnapshot) == SnapshotReconciled(w)
    ensures w.mode.at == AtSession ==>
      Enabled(l, w, ReconcileSession) && Apply(l, w, ReconcileSession) == SessionReconciled(w)
    ensures w.mode.at == AtOperation ==>
      Enabled(l, w, ReconcileOperation) && Apply(l, w, ReconcileOperation) == OperationReconciled(w)
  {
    hide SnapshotReconciled, SessionReconciled, OperationReconciled;
  }

  lemma OneRuns(l: Lib, w: World, todo: seq<Id>, rest: seq<Step>)
    requires w.mode == Reconciling(todo, AtSnapshot) && todo != []
    requires IsRun(l, WorldReconciling(w, ReconciledOne(w.cat, todo[0]), todo[1..]), rest)
    ensures var steps := [ReconcileSnapshot, ReconcileSession, ReconcileOperation] + rest;
      && IsRun(l, w, steps)
      && After(l, w, steps) == After(l, WorldReconciling(w, ReconciledOne(w.cat, todo[0]), todo[1..]), rest)
  {
    hide SetSnapshotStatus, SetSessionStatus, FailOperationsOf, Enabled, Apply, IsRun, After;
    var w1 := SnapshotReconciled(w);
    var w2 := SessionReconciled(w1);
    assert OperationReconciled(w2) == WorldReconciling(w, ReconciledOne(w.cat, todo[0]), todo[1..]);
    StatementStep(l, w);
    StatementStep(l, w1);
    StatementStep(l, w2);
    RunCons(l, w2, ReconcileOperation, rest);
    RunCons(l, w1, ReconcileSession, [ReconcileOperation] + rest);
    RunCons(l, w, ReconcileSnapshot, [ReconcileSession] + ([ReconcileOperation] + rest));
    assert [ReconcileSnapshot] + ([ReconcileSession] + ([ReconcileOperation] + rest))
        == [ReconcileSnapshot, ReconcileSession, ReconcileOperation] + rest;
  }

  lemma {:induction false} LoopRuns(l: Lib, w: World, todo: seq<Id>)
    requires w.mode == Reconciling(todo, AtSnapshot)
    ensures IsRun(l, w, ReconcileSteps(|todo|))
    ensures After(l, w, ReconcileSteps(|todo|)) == WorldReconciling(w, Reconciled(w.cat, todo), [])
    decreases |todo|
  {
    hide Enabled, Apply, ReconciledOne;
    if todo != [] {
      var next := WorldReconciling(w, ReconciledOne(w.cat, todo[0]), todo[1..]);
      LoopRuns(l, next, todo[1..]);
      OneRuns(l, w, todo, ReconcileSteps(|todo| - 1));
      ReconciledForward(w.cat, todo);
    }
  }

  lemma ListingStep(l: Lib, w: World, stale: seq<Id>)
    requires w.mode == Starting && StaleList(w.cat, stale)
    ensures Enabled(l, w, ListStale(stale)) && Apply(l, w, ListStale(stale)) == WorldReconciling(w, w.cat, stale)
  {
    hide StaleList;
  }

  /** Listing stale sessions and reconciling them is a run of the machine that ends in the loop's rows. */
  lemma ReconcileIsRun(l: Lib, w: World, stale: seq<Id>)
    requires w.mode == Starting && StaleList(w.cat, stale)
    ensures var steps := [ListStale(stale)] + ReconcileSteps(|stale|);
      && IsRun(l, w, steps)
      && After(l, w, steps) == WorldReconciling(w, Reconciled(w.cat, stale), [])
  {
    hide StaleList, ReconciledOne, Enabled, Apply, IsRun, After;
    ListingStep(l, w, stale);
    LoopRuns(l, WorldReconciling(w, w.cat, stale), stale);
    RunCons(l, w, ListStale(stale), ReconcileSteps(|stale|));
  }
}
