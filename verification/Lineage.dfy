/** Restore chains and descendant counts over the parent links of snapshots
    (ListSnapshotRestoreChain and CountCommittedDescendants). */
module Lineage {
  import opened Base
  import opened Catalogs

  type Parents = map<Id, Option<Id>>

  function ParentsOf(snapshots: map<Id, Snapshot>): Parents {
    map s | s in snapshots :: snapshots[s].parent
  }

  ghost predicate IsRank(p: Parents, r: map<Id, nat>) {
    forall s :: s in p ==> s in r && (p[s].Some? && p[s].value in p ==> p[s].value in r && r[p[s].value] < r[s])
  }

  ghost predicate Acyclic(p: Parents) {
    exists r :: IsRank(p, r)
  }

  ghost predicate Closed(p: Parents) {
    forall s :: s in p && p[s].Some? ==> p[s].value in p
  }

  ghost function Rank(p: Parents): (r: map<Id, nat>)
    requires Acyclic(p)
    ensures IsRank(p, r)
  {
    var r :| IsRank(p, r); r
  }

  ghost function Measure(p: Parents, s: Id): nat
    requires Acyclic(p)
  {
    if s in p then Rank(p)[s] + 1 else 0
  }

  /** The recursive query, ORDER BY depth DESC: from the oldest ancestor to the target.
      It terminates because the parent links are acyclic. */
  ghost function Chain(p: Parents, s: Id): seq<Id>
    requires Acyclic(p)
    decreases Measure(p, s)
  {
    if s !in p then []
    else match p[s]
      case None => [s]
      case Some(q) => Chain(p, q) + [s]
  }

  ghost predicate IsChain(p: Parents, s: Id, chain: seq<Id>) {
    && chain != [] && chain[|chain| - 1] == s
    && (forall i :: 0 <= i < |chain| ==> chain[i] in p)
    && p[chain[0]] == None
    && (forall i :: 0 < i < |chain| ==> p[chain[i]] == Some(chain[i - 1]))
  }

  /** The query returns a path that starts at a parentless snapshot and ends at its target. */
  lemma {:induction false} ChainShape(p: Parents, s: Id)
    requires Acyclic(p) && Closed(p) && s in p
    ensures IsChain(p, s, Chain(p, s))
    decreases Measure(p, s)
  {
    if p[s].Some? {
      ChainShape(p, p[s].value);
    }
  }

  /** That path is the only one. */
  lemma {:induction false} ChainUnique(p: Parents, s: Id, chain: seq<Id>)
    requires Acyclic(p) && IsChain(p, s, chain)
    ensures chain == Chain(p, s)
    decreases |chain|
  {
    var n := |chain| - 1;
    if n > 0 {
      ChainUnique(p, chain[n - 1], chain[..n]);
      assert chain == chain[..n] + [s];
    }
  }

  /** Ancestors come strictly earlier in every rank, so no snapshot repeats in a chain. */
  lemma {:induction false} ChainRank(p: Parents, s: Id, a: Id)
    requires Acyclic(p) && s in p && a in Chain(p, s)
    ensures a in p && (a != s ==> Rank(p)[a] < Rank(p)[s])
    decreases Measure(p, s)
  {
    if p[s].Some? && a != s {
      assert a in Chain(p, p[s].value);
      ChainRank(p, p[s].value, a);
    }
  }

  lemma {:induction false} ChainTransitive(p: Parents, s: Id, a: Id, b: Id)
    requires Acyclic(p) && a in Chain(p, b) && b in Chain(p, s)
    ensures a in Chain(p, s)
    decreases Measure(p, s)
  {
    if s in p && b != s {
      assert p[s].Some? && b in Chain(p, p[s].value);
      ChainTransitive(p, p[s].value, a, b);
    }
  }

  /** Below an ancestor other than itself, a chain passes through one of that ancestor's children. */
  lemma {:induction false} ChainVia(p: Parents, s: Id, a: Id) returns (child: Id)
    requires Acyclic(p) && s in p && a in Chain(p, s) && a != s
    ensures child in p && p[child] == Some(a) && child in Chain(p, s)
    decreases Measure(p, s)
  {
    var q := p[s].value;
    assert a in Chain(p, q);
    if q == a {
      child := s;
    } else {
      child := ChainVia(p, q, a);
    }
  }

  /** Two tables that agree on the ancestors of a snapshot give it the same chain. */
  lemma {:induction false} ChainFrame(p: Parents, q: Parents, s: Id)
    requires Acyclic(p) && Acyclic(q) && Closed(p) && s in p
    requires forall a :: a in Chain(p, s) ==> a in p && a in q && q[a] == p[a]
    ensures Chain(q, s) == Chain(p, s)
    decreases Measure(p, s)
  {
    assert s in Chain(p, s);
    if p[s].Some? {
      ChainFrame(p, q, p[s].value);
    }
  }

  /** A new row under an existing parent keeps the links acyclic and every existing chain as it was. */
  lemma AddLeaf(p: Parents, s: Id, parent: Option<Id>)
    requires Acyclic(p) && Closed(p) && s !in p && (parent.Some? ==> parent.value in p)
    ensures var q := p[s := parent];
      && Acyclic(q) && Closed(q)
      && (forall t :: t in p ==> Chain(q, t) == Chain(p, t))
      && |Chain(q, s)| == (if parent.Some? then |Chain(p, parent.value)| else 0) + 1
  {
    var q := p[s := parent];
    var r := Rank(p);
    var r' := r[s := if parent.Some? then r[parent.value] + 1 else 0];
    assert IsRank(q, r');
    forall t | t in p ensures Chain(q, t) == Chain(p, t) {
      forall a | a in Chain(p, t) ensures a in p { ChainRank(p, t, a); }
      ChainFrame(p, q, t);
    }
  }

  /** Removing rows that no remaining row points to keeps the links acyclic and the remaining chains. */
  lemma RemoveRows(p: Parents, gone: set<Id>)
    requires Acyclic(p) && Closed(p)
    requires forall t :: t in p && t !in gone && p[t].Some? ==> p[t].value !in gone
    ensures var q := p - gone;
      && Acyclic(q) && Closed(q)
      && (forall t :: t in q ==> Chain(q, t) == Chain(p, t))
  {
    var q := p - gone;
    assert IsRank(q, Rank(p));
    forall t | t in q ensures Chain(q, t) == Chain(p, t) {
      forall a | a in Chain(p, t) ensures a in q { KeptAncestor(p, gone, t, a); }
      ChainFrame(p, q, t);
    }
  }

  lemma {:induction false} KeptAncestor(p: Parents, gone: set<Id>, t: Id, a: Id)
    requires Acyclic(p) && Closed(p) && t in p && t !in gone && a in Chain(p, t)
    requires forall t :: t in p && t !in gone && p[t].Some? ==> p[t].value !in gone
    ensures a in p && a !in gone
    decreases Measure(p, t)
  {
    if a != t {
      KeptAncestor(p, gone, p[t].value, a);
    }
  }

  // ---- CountCommittedDescendants ----

  /** One round of the recursive query: committed rows whose parent is in the previous round. */
  function CommittedChildren(snapshots: map<Id, Snapshot>, level: set<Id>): set<Id> {
    set c | c in snapshots && snapshots[c].status == Committed
            && snapshots[c].parent.Some? && snapshots[c].parent.value in level
  }

  ghost function Above(p: Parents, level: set<Id>): set<Id>
    requires Acyclic(p)
  {
    set c | c in p && exists s :: s in level && s in p && Rank(p)[s] < Rank(p)[c]
  }

  lemma AboveShrinks(snapshots: map<Id, Snapshot>, level: set<Id>)
    requires Acyclic(ParentsOf(snapshots)) && level != {} && level <= snapshots.Keys
    ensures var next := CommittedChildren(snapshots, level);
      next == {} || |Above(ParentsOf(snapshots), next)| < |Above(ParentsOf(snapshots), level)|
  {
    var p := ParentsOf(snapshots);
    var next := CommittedChildren(snapshots, level);
    if next != {} {
      var m := Lowest(p, next);
      assert snapshots[m].parent.value in level;
      assert m in Above(p, level);
      assert m !in Above(p, next);
      forall c | c in Above(p, next) ensures c in Above(p, level) {
        var s :| s in next && Rank(p)[s] < Rank(p)[c];
        assert snapshots[s].parent.value in level;
        assert Rank(p)[snapshots[s].parent.value] < Rank(p)[c];
      }
      assert Above(p, next) <= Above(p, level) - {m};
      Smaller(Above(p, next), Above(p, level) - {m});
    }
  }

  lemma {:induction false} Lowest(p: Parents, level: set<Id>) returns (m: Id)
    requires Acyclic(p) && level != {} && level <= p.Keys
    ensures m in level && forall s :: s in level ==> Rank(p)[m] <= Rank(p)[s]
    decreases |level|
  {
    m :| m in level;
    if level != {m} {
      assert level - {m} != {};
      var k := Lowest(p, level - {m});
      m := if Rank(p)[k] < Rank(p)[m] then k else m;
    }
  }

  lemma {:induction false} Smaller<T>(a: set<T>, b: set<T>)
    requires a <= b
    ensures |a| <= |b|
    decreases |a|
  {
    if a != {} {
      var x :| x in a;
      Smaller(a - {x}, b - {x});
    }
  }

  /** UNION ALL of all rounds, counted. */
  ghost function CountRounds(snapshots: map<Id, Snapshot>, level: set<Id>): nat
    requires Acyclic(ParentsOf(snapshots)) && level <= snapshots.Keys
    decreases if level == {} then 0 else 1 + |Above(ParentsOf(snapshots), level)|
  {
    if level == {} then 0
    else
      AboveShrinks(snapshots, level);
      |level| + CountRounds(snapshots, CommittedChildren(snapshots, level))
  }

  ghost function CountCommittedDescendants(snapshots: map<Id, Snapshot>, x: Id): nat
    requires Acyclic(ParentsOf(snapshots))
  {
    CountRounds(snapshots, CommittedChildren(snapshots, {x}))
  }

  ghost predicate ParentsCommitted(snapshots: map<Id, Snapshot>) {
    forall s :: s in snapshots && snapshots[s].status == Committed && snapshots[s].parent.Some? ==>
      snapshots[s].parent.value in snapshots && snapshots[snapshots[s].parent.value].status == Committed
  }

  /** Committed snapshots whose restore chain passes through a member of the level. */
  ghost function Through(snapshots: map<Id, Snapshot>, level: set<Id>): set<Id>
    requires Acyclic(ParentsOf(snapshots))
  {
    set s | s in snapshots && snapshots[s].status == Committed
            && exists a :: a in level && a in Chain(ParentsOf(snapshots), s)
  }

  /** Committed snapshots that need x to be restored, other than x. */
  ghost function Dependents(snapshots: map<Id, Snapshot>, x: Id): set<Id>
    requires Acyclic(ParentsOf(snapshots))
  {
    Through(snapshots, {x}) - {x}
  }

  ghost predicate Antichain(p: Parents, level: set<Id>)
    requires Acyclic(p)
  {
    forall a, b :: a in level && b in level && a in Chain(p, b) ==> a == b
  }

  lemma ChildInChain(snapshots: map<Id, Snapshot>, level: set<Id>, c: Id)
    requires Acyclic(ParentsOf(snapshots)) && level <= snapshots.Keys && c in CommittedChildren(snapshots, level)
    ensures var p := ParentsOf(snapshots); var q := snapshots[c].parent.value;
      c in p && q in p && p[c] == Some(q) && q in level && Chain(p, c) == Chain(p, q) + [c] && q in Chain(p, c)
  {
    var q := snapshots[c].parent.value;
    assert q in Chain(ParentsOf(snapshots), q);
  }

  lemma ChildrenAntichain(snapshots: map<Id, Snapshot>, level: set<Id>)
    requires Acyclic(ParentsOf(snapshots)) && level <= snapshots.Keys && Antichain(ParentsOf(snapshots), level)
    ensures Antichain(ParentsOf(snapshots), CommittedChildren(snapshots, level))
  {
    var p, next := ParentsOf(snapshots), CommittedChildren(snapshots, level);
    forall a, b | a in next && b in next && a in Chain(p, b) ensures a == b {
      ChildInChain(snapshots, level, a);
      ChildInChain(snapshots, level, b);
      var qa, qb := snapshots[a].parent.value, snapshots[b].parent.value;
      if a != b {
        assert a in Chain(p, qb);
        ChainTransitive(p, qb, qa, a);
        assert qa == qb;
        ChainRank(p, qb, a);
        assert false;
      }
    }
  }

  /** What a round reaches: its own members, and what the next round reaches. */
  lemma ThroughSplits(snapshots: map<Id, Snapshot>, level: set<Id>)
    requires Acyclic(ParentsOf(snapshots)) && Closed(ParentsOf(snapshots)) && ParentsCommitted(snapshots)
    requires level <= snapshots.Keys && Antichain(ParentsOf(snapshots), level)
    ensures Through(snapshots, CommittedChildren(snapshots, level)) == Through(snapshots, level) - level
  {
    var p, next := ParentsOf(snapshots), CommittedChildren(snapshots, level);
    forall s | s in Through(snapshots, next) ensures s in Through(snapshots, level) && s !in level {
      var c :| c in next && c in Chain(p, s);
      ChildInChain(snapshots, level, c);
      var q := snapshots[c].parent.value;
      ChainTransitive(p, s, q, c);
      if s in level {
        assert q == s;
        ChainRank(p, s, c);
        assert false;
      }
    }
    forall s | s in Through(snapshots, level) && s !in level ensures s in Through(snapshots, next) {
      var a :| a in level && a in Chain(p, s);
      var c := ChainVia(p, s, a);
      AncestorCommitted(snapshots, s, c);
      assert c in next;
    }
  }

  lemma {:induction false} AncestorCommitted(snapshots: map<Id, Snapshot>, s: Id, a: Id)
    requires Acyclic(ParentsOf(snapshots)) && ParentsCommitted(snapshots)
    requires s in snapshots && snapshots[s].status == Committed && a in Chain(ParentsOf(snapshots), s)
    ensures a in snapshots && snapshots[a].status == Committed
    decreases Measure(ParentsOf(snapshots), s)
  {
    if a != s {
      AncestorCommitted(snapshots, snapshots[s].parent.value, a);
    }
  }

  lemma ThroughSize(snapshots: map<Id, Snapshot>, level: set<Id>)
    requires Acyclic(ParentsOf(snapshots)) && level <= snapshots.Keys
    requires forall s :: s in level ==> snapshots[s].status == Committed
    ensures |Through(snapshots, level)| == |level| + |Through(snapshots, level) - level|
  {
    hide Acyclic;
    forall s | s in level ensures s in Through(snapshots, level) {
      assert s in Chain(ParentsOf(snapshots), s);
    }
    hide Through;
    PartSize(Through(snapshots, level), level);
  }

  lemma PartSize<T>(all: set<T>, part: set<T>)
    requires part <= all
    ensures |all| == |part| + |all - part|
  {
    assert all == part + (all - part);
  }

  lemma {:induction false} RoundsCountThrough(snapshots: map<Id, Snapshot>, level: set<Id>)
    requires Acyclic(ParentsOf(snapshots)) && Closed(ParentsOf(snapshots)) && ParentsCommitted(snapshots)
    requires level <= snapshots.Keys && Antichain(ParentsOf(snapshots), level)
    requires forall s :: s in level ==> snapshots[s].status == Committed
    ensures CountRounds(snapshots, level) == |Through(snapshots, level)|
    decreases if level == {} then 0 else 1 + |Above(ParentsOf(snapshots), level)|
  {
    if level == {} {
      assert Through(snapshots, level) == {};
    } else {
      var next := CommittedChildren(snapshots, level);
      AboveShrinks(snapshots, level);
      ChildrenAntichain(snapshots, level);
      RoundsCountThrough(snapshots, next);
      ThroughSplits(snapshots, level);
      ThroughSize(snapshots, level);
    }
  }

  /** The pruned recursive count is the number of committed snapshots that cannot be restored without x. */
  lemma CountIsDependents(snapshots: map<Id, Snapshot>, x: Id)
    requires Acyclic(ParentsOf(snapshots)) && Closed(ParentsOf(snapshots)) && ParentsCommitted(snapshots)
    requires x in snapshots
    ensures CountCommittedDescendants(snapshots, x) == |Dependents(snapshots, x)|
  {
    var p := ParentsOf(snapshots);
    assert Antichain(p, {x});
    ChildrenAntichain(snapshots, {x});
    ThroughSplits(snapshots, {x});
    RoundsCountThrough(snapshots, CommittedChildren(snapshots, {x}));
  }
}
