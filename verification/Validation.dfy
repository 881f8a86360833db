/** Re-checking a stored chain (internal/validation/validation.go). */
module Validation {
  import opened Base
  import opened Manifests
  import opened Catalogs
  import opened Lineage
  import opened Streams
  import opened Storage
  import opened Envelopes
  import opened Repositories

  datatype Guids = Guids(from: string, to: string)

  /** A stream checker: after how many bytes it stops reading, and what it makes of the bytes it was given.
      A checker that stops early is one that reads fewer bytes than the stream has. */
  datatype Checker = Checker(stops: Key -> nat, verdict: (Key, Bytes) -> Option<Guids>)

  // ---- what the checks say, apart from how they are made ----

  /** The catalog's chunk rows and the manifest's chunks are the same list. */
  ghost predicate RowsAgree(c: Catalog, s: Id, m: Manifest) {
    && (forall i: nat :: (s, i) in c.chunks <==> i < |m.chunks|)
    && (forall i: nat :: i < |m.chunks| ==> RowAgrees(c.chunks[(s, i)], m.chunks[i]))
  }

  predicate RowAgrees(row: ChunkRow, chunk: Chunk) {
    row.key == chunk.key && row.size == chunk.size && row.sha == chunk.sha
  }

  predicate HeadAgrees(l: Lib, store: Objects, chunk: Chunk) {
    && chunk.key in store && |store[chunk.key]| == chunk.size
    && (l.sha(store[chunk.key]) == "" || l.sha(store[chunk.key]) == chunk.sha)
  }

  ghost function Verified(l: Lib, c: Catalog, store: Objects, s: Id, key: Key): Option<Manifest> {
    if key !in store then None
    else match Unmarshal(l, store[key])
      case None => None
      case Some(m) =>
        if RowsAgree(c, s, m) && (forall i :: 0 <= i < |m.chunks| ==> HeadAgrees(l, store, m.chunks[i]))
        then Some(m) else None
  }

  /** The stream behind a manifest is whole, and the checker read all of it and liked it. */
  function Checked(l: Lib, store: Objects, checker: Checker, key: Key, m: Manifest): Option<Guids> {
    match ReadChunks(l, store, m.chunks)
    case None => None
    case Some(data) =>
      if |data| == m.stream.size && l.sha(data) == m.stream.sha && |data| <= checker.stops(key)
      then checker.verdict(key, data) else None
  }

  predicate GuidsLink(previous: Guids, current: Guids) {
    (previous.to == "" && current.from == "") || (previous.to != "" && current.from == previous.to)
  }

  /** The i-th snapshot of a chain passes every check of its own. */
  ghost predicate ItemOk(l: Lib, c: Catalog, store: Objects, checker: Checker, chain: seq<Id>, i: nat)
    requires i < |chain|
  {
    && chain[i] in c.snapshots && (i > 0 ==> chain[i - 1] in c.snapshots)
    && var row := c.snapshots[chain[i]];
       && row.status == Committed && row.manifestKey.Some?
       && row.parent == (if i == 0 then None else Some(chain[i - 1]))
       && var m := Verified(l, c, store, chain[i], row.manifestKey.value);
          && m.Some? && m.value.snapshot == row.name
          && m.value.baseSnapshot == (if i == 0 then "" else c.snapshots[chain[i - 1]].name)
          && Checked(l, store, checker, row.manifestKey.value, m.value).Some?
  }

  ghost function GuidsAt(l: Lib, c: Catalog, store: Objects, checker: Checker, chain: seq<Id>, i: nat): Guids
    requires i < |chain| && ItemOk(l, c, store, checker, chain, i)
  {
    var key := c.snapshots[chain[i]].manifestKey.value;
    Checked(l, store, checker, key, Verified(l, c, store, chain[i], key).value).value
  }

  ghost predicate ChainOk(l: Lib, c: Catalog, store: Objects, checker: Checker, chain: seq<Id>, s: Id) {
    && chain != [] && chain[|chain| - 1] == s
    && (forall i :: 0 <= i < |chain| ==> ItemOk(l, c, store, checker, chain, i))
    && (forall i :: 0 < i < |chain| ==>
          GuidsLink(GuidsAt(l, c, store, checker, chain, i - 1), GuidsAt(l, c, store, checker, chain, i)))
  }

  /** The i-th snapshot of the chain restores, on top of the one before, with the size and hash its manifest records. */
  ghost predicate ItemRestores(l: Lib, c: Catalog, store: Objects, chain: seq<Id>, i: nat)
    requires i < |chain|
  {
    && chain[i] in c.snapshots && c.snapshots[chain[i]].status == Committed && c.snapshots[chain[i]].manifestKey.Some?
    && c.snapshots[chain[i]].parent == (if i == 0 then None else Some(chain[i - 1]))
    && var key := c.snapshots[chain[i]].manifestKey.value;
       && Restored(l, store, key).Some? && Unmarshal(l, store[key]).Some?
       && var data, m := Restored(l, store, key).value, Unmarshal(l, store[key]).value;
          |data| == m.stream.size == TotalSize(m.chunks) && l.sha(data) == m.stream.sha
  }

  ghost predicate Restorable(l: Lib, c: Catalog, store: Objects, chain: seq<Id>) {
    forall i :: 0 <= i < |chain| ==> ItemRestores(l, c, store, chain, i)
  }

  /** Row by row and object by object: a snapshot has a catalog row for exactly the numbers below its manifest's chunk
      count, the row has the chunk's key, size and hash, and the object under that key is there with that size and, if
      the store gives one, that hash. */
  ghost predicate MatchesCatalog(l: Lib, c: Catalog, store: Objects, s: Id, m: Manifest) {
    && (forall i: nat :: (s, i) in c.chunks <==> i < |m.chunks|)
    && (forall i: nat :: i < |m.chunks| ==>
          var row, chunk := c.chunks[(s, i)], m.chunks[i];
          && row.key == chunk.key && row.size == chunk.size && row.sha == chunk.sha
          && chunk.key in store && |store[chunk.key]| == chunk.size
          && (l.sha(store[chunk.key]) != "" ==> l.sha(store[chunk.key]) == chunk.sha))
  }

  /** The objects read in full: each is there with its chunk's size and hash. */
  ghost predicate ObjectsMatch(l: Lib, store: Objects, chunks: seq<Chunk>) {
    forall i :: 0 <= i < |chunks| ==>
      chunks[i].key in store && |store[chunks[i].key]| == chunks[i].size && l.sha(store[chunks[i].key]) == chunks[i].sha
  }

  lemma {:induction false} ReadMatches(l: Lib, store: Objects, chunks: seq<Chunk>)
    requires ReadChunks(l, store, chunks).Some?
    ensures ObjectsMatch(l, store, chunks)
  {
    if chunks != [] {
      ReadMatches(l, store, chunks[..|chunks| - 1]);
    }
  }

  /** Of every snapshot of the chain, and the manifest its row names. */
  ghost predicate ChainMatches(l: Lib, c: Catalog, store: Objects, chain: seq<Id>) {
    forall k :: 0 <= k < |chain| ==> ItemMatches(l, c, store, chain[k])
  }

  ghost predicate ItemMatches(l: Lib, c: Catalog, store: Objects, s: Id) {
    && s in c.snapshots && c.snapshots[s].manifestKey.Some?
    && var key := c.snapshots[s].manifestKey.value;
       && key in store && Unmarshal(l, store[key]).Some?
       && MatchesCatalog(l, c, store, s, Unmarshal(l, store[key]).value)
       && ObjectsMatch(l, store, Unmarshal(l, store[key]).value.chunks)
  }

  /** A manifest passes the check exactly when it parses and matches. */
  lemma VerifiedMatches(l: Lib, c: Catalog, store: Objects, s: Id, key: Key, m: Manifest)
    ensures Verified(l, c, store, s, key) == Some(m) <==>
      key in store && Unmarshal(l, store[key]) == Some(m) && MatchesCatalog(l, c, store, s, m)
  {
    hide Unmarshal;
  }

  lemma ChainOkMatches(l: Lib, c: Catalog, store: Objects, checker: Checker, chain: seq<Id>, s: Id)
    requires ChainOk(l, c, store, checker, chain, s)
    ensures ChainMatches(l, c, store, chain)
  {
    hide Verified, GuidsAt, GuidsLink, MatchesCatalog, ObjectsMatch;
    forall k | 0 <= k < |chain| ensures ItemMatches(l, c, store, chain[k]) {
      assert ItemOk(l, c, store, checker, chain, k);
      var key := c.snapshots[chain[k]].manifestKey.value;
      var m := Verified(l, c, store, chain[k], key).value;
      VerifiedMatches(l, c, store, chain[k], key, m);
      ReadMatches(l, store, m.chunks);
      assert key in store && Unmarshal(l, store[key]).Some?;
    }
  }

  /** One row too many, one missing, or one with another key, size or hash than the manifest's chunk, in any snapshot
      of the chain, and the chain is turned down. */
  lemma MismatchRefused(l: Lib, c: Catalog, store: Objects, checker: Checker, chain: seq<Id>, s: Id, k: nat, i: nat)
    requires k < |chain| && chain[k] in c.snapshots && c.snapshots[chain[k]].manifestKey.Some?
    requires var key := c.snapshots[chain[k]].manifestKey.value; key in store && Unmarshal(l, store[key]).Some?
    requires var m := Unmarshal(l, store[c.snapshots[chain[k]].manifestKey.value]).value;
      || ((chain[k], i) in c.chunks && i >= |m.chunks|)
      || (i < |m.chunks| && (chain[k], i) !in c.chunks)
      || (i < |m.chunks| && (chain[k], i) in c.chunks
          && (c.chunks[(chain[k], i)].key != m.chunks[i].key || c.chunks[(chain[k], i)].size != m.chunks[i].size
              || c.chunks[(chain[k], i)].sha != m.chunks[i].sha))
    ensures !ChainOk(l, c, store, checker, chain, s)
  {
    hide ChainOk, Unmarshal;
    assert !ItemMatches(l, c, store, chain[k]);
    if ChainOk(l, c, store, checker, chain, s) {
      ChainOkMatches(l, c, store, checker, chain, s);
    }
  }

  lemma ItemOkRestores(l: Lib, c: Catalog, store: Objects, checker: Checker, chain: seq<Id>, i: nat)
    requires i < |chain| && ItemOk(l, c, store, checker, chain, i)
    ensures ItemRestores(l, c, store, chain, i)
  {
    hide RowsAgree, HeadAgrees, WellFormed;
    var m := Verified(l, c, store, chain[i], c.snapshots[chain[i]].manifestKey.value).value;
    TotalIsLength(l, store, m.chunks);
  }

  /** What validation accepts can be restored, snapshot by snapshot from the root to the target, whatever the
      checker: one that stops reading early fails the check rather than hiding the rest of the stream. */
  lemma ValidRestores(l: Lib, c: Catalog, store: Objects, checker: Checker, chain: seq<Id>, s: Id)
    requires ChainOk(l, c, store, checker, chain, s)
    ensures Restorable(l, c, store, chain)
  {
    hide ItemOk, ItemRestores;
    forall i | 0 <= i < |chain| ensures ItemRestores(l, c, store, chain, i) {
      ItemOkRestores(l, c, store, checker, chain, i);
    }
  }

  lemma ChainMembers(snapshots: map<Id, Snapshot>, s: Id)
    requires Acyclic(ParentsOf(snapshots))
    ensures forall i :: 0 <= i < |Chain(ParentsOf(snapshots), s)| ==> Chain(ParentsOf(snapshots), s)[i] in snapshots
  {
    hide Acyclic;
    var p := ParentsOf(snapshots);
    if s in p {
      forall i | 0 <= i < |Chain(p, s)| ensures Chain(p, s)[i] in snapshots {
        ChainRank(p, s, Chain(p, s)[i]);
      }
    }
  }

  class Validator {
    const repo: Repository
    const store: EncryptedStore
    const checker: Checker

    constructor (repo: Repository, store: EncryptedStore, checker: Checker)
      ensures this.repo == repo && this.store == store && this.checker == checker
    {
      this.repo, this.store, this.checker := repo, store, checker;
    }

    /** writeManifestStream into a pipe whose reader takes at most a number of bytes and then closes it: a write
        that is not wholly taken is an error. */
    method WriteManifestStream(l: Lib, m: Manifest, takes: nat) returns (ok: bool, written: Bytes)
      requires store.Valid()
      modifies store`keyCache
      ensures store.Valid()
      ensures ok <==>
        && ReadChunks(l, store.View(), m.chunks).Some?
        && var data := ReadChunks(l, store.View(), m.chunks).value;
           |data| == m.stream.size && l.sha(data) == m.stream.sha && |data| <= takes
      ensures ok ==> written == ReadChunks(l, store.View(), m.chunks).value
    {
      hide Shows, Sound, CacheTrue;
      var hashed: Bytes := [];
      var total := 0;
      ghost var view := store.View();
      for i := 0 to |m.chunks|
        invariant store.Valid() && store.View() == view
        invariant ReadChunks(l, view, m.chunks[..i]) == Some(hashed) && total == |hashed| <= takes
      {
        var c := m.chunks[i];
        assert m.chunks[..i + 1][..i] == m.chunks[..i];
        ReadPrefix(l, view, m.chunks, i + 1);
        var data := store.GetBytes(c.key);
        if data.None? {
          ReadPrefixFails(l, view, m.chunks, i + 1);
          return false, hashed;
        }
        if total + |data.value| > takes {
          return false, hashed + data.value[..takes - total];
        }
        hashed := hashed + data.value;
        if |data.value| != c.size || l.sha(data.value) != c.sha {
          ReadPrefixFails(l, view, m.chunks, i + 1);
          return false, hashed;
        }
        total := total + |data.value|;
      }
      assert m.chunks[..|m.chunks|] == m.chunks;
      return total == m.stream.size && l.sha(hashed) == m.stream.sha, hashed;
    }

    method CheckStream(l: Lib, key: Key, m: Manifest) returns (guids: Option<Guids>)
      requires store.Valid()
      modifies store`keyCache
      ensures store.Valid() && guids == Checked(l, store.View(), checker, key, m)
    {
      hide Shows, Sound, CacheTrue, ReadChunks;
      var ok, written := WriteManifestStream(l, m, checker.stops(key));
      guids := checker.verdict(key, written);
      if !ok {
        guids := None;
      }
    }

    /** ListSnapshotChunks: the rows of a snapshot by ascending index. */
    method ListSnapshotChunks(s: Id) returns (list: seq<nat>)
      ensures forall i :: 0 <= i < |list| ==> (s, list[i]) in repo.cat.chunks
      ensures forall i, j :: 0 <= i < j < |list| ==> list[i] < list[j]
      ensures forall i: nat :: (s, i) in repo.cat.chunks ==> i in list
    {
      var chunks := repo.cat.chunks;
      var rest: set<nat> := set k | k in chunks && k.0 == s :: k.1;
      list := [];
      while rest != {}
        invariant forall i :: i in rest ==> (s, i) in chunks
        invariant forall i :: 0 <= i < |list| ==> (s, list[i]) in chunks
        invariant forall i, j :: 0 <= i < j < |list| ==> list[i] < list[j]
        invariant forall i, x :: 0 <= i < |list| && x in rest ==> list[i] < x
        invariant forall i: nat :: (s, i) in chunks ==> i in list || i in rest
        decreases |rest|
      {
        var least := Least(rest);
        list := list + [least];
        rest := rest - {least};
      }
    }

    method VerifyManifestAndObjects(l: Lib, s: Id, key: Key) returns (m: Option<Manifest>)
      requires store.Valid()
      modifies store`keyCache
      ensures store.Valid() && m == Verified(l, repo.cat, store.View(), s, key)
      ensures m.Some? <==>
        && key in store.View() && Unmarshal(l, store.View()[key]).Some?
        && MatchesCatalog(l, repo.cat, store.View(), s, Unmarshal(l, store.View()[key]).value)
      ensures m.Some? ==> m == Unmarshal(l, store.View()[key])
    {
      hide Shows, Sound, CacheTrue, WellFormed;
      var body := store.GetBytes(key);
      if body.None? {
        return None;
      }
      var parsed := Parse(l, body.value);
      if parsed.None? {
        return None;
      }
      var mani := parsed.value;
      assert Indexed(mani) by { AcceptedIndexed(l, body.value); }
      var ok := VerifyChunks(l, s, mani);
      return if ok then parsed else None;
    }

    method VerifyChunks(l: Lib, s: Id, m: Manifest) returns (ok: bool)
      requires store.Valid() && Indexed(m)
      modifies store`keyCache
      ensures store.Valid()
      ensures ok <==> RowsAgree(repo.cat, s, m) && forall i :: 0 <= i < |m.chunks| ==> HeadAgrees(l, store.View(), m.chunks[i])
    {
      hide Shows, Sound, CacheTrue;
      var list := ListSnapshotChunks(s);
      ghost var view := store.View();
      if |list| != |m.chunks| {
        if RowsAgree(repo.cat, s, m) {
          Counting(list, |m.chunks|);
        }
        return false;
      }
      for i := 0 to |m.chunks|
        invariant store.Valid() && store.View() == view
        invariant forall k :: 0 <= k < i ==>
          list[k] == k && RowAgrees(repo.cat.chunks[(s, k)], m.chunks[k]) && HeadAgrees(l, view, m.chunks[k])
      {
        var chunk := m.chunks[i];
        var row := repo.cat.chunks[(s, list[i])];
        if list[i] != chunk.index || row.key != chunk.key || row.size != chunk.size || row.sha != chunk.sha {
          if RowsAgree(repo.cat, s, m) {
            Counting(list, |m.chunks|);
          }
          return false;
        }
        var info := store.Head(l, chunk.key);
        if info.None? || info.value.size != chunk.size || (info.value.sha != "" && info.value.sha != chunk.sha) {
          return false;
        }
      }
      return true;
    }

    /** ValidateChain: every snapshot of the restore chain on its own, then the GUIDs of neighbours. */
    method ValidateChain(l: Lib, s: Id) returns (ok: bool)
      requires store.Valid() && Acyclic(ParentsOf(repo.cat.snapshots))
      modifies store`keyCache
      ensures store.Valid()
      ensures ok <==> ChainOk(l, repo.cat, store.View(), checker, Chain(ParentsOf(repo.cat.snapshots), s), s)
      ensures ok ==> Restorable(l, repo.cat, store.View(), Chain(ParentsOf(repo.cat.snapshots), s))
      ensures ok ==> ChainMatches(l, repo.cat, store.View(), Chain(ParentsOf(repo.cat.snapshots), s))
    {
      hide Shows, Sound, CacheTrue, Acyclic, Verified, Checked, Restorable, MatchesCatalog, ChainMatches;
      var chain := repo.RestoreChain(s);
      if chain == [] || chain[|chain| - 1] != s {
        return false;
      }
      var c := repo.cat;
      ghost var view := store.View();
      var items: seq<Guids> := [];
      ChainMembers(c.snapshots, s);
      for i := 0 to |chain|
        invariant store.Valid() && store.View() == view && |items| == i
        invariant forall k :: 0 <= k < i ==>
          ItemOk(l, c, view, checker, chain, k) && items[k] == GuidsAt(l, c, view, checker, chain, k)
      {
        var row := c.snapshots[chain[i]];
        if row.status != Committed || row.manifestKey.None? {
          assert !ItemOk(l, c, view, checker, chain, i);
          return false;
        }
        if (if i == 0 then row.parent.Some? else row.parent != Some(chain[i - 1])) {
          assert !ItemOk(l, c, view, checker, chain, i);
          return false;
        }
        var key := row.manifestKey.value;
        var m := VerifyManifestAndObjects(l, chain[i], key);
        if m.None? || m.value.snapshot != row.name {
          assert !ItemOk(l, c, view, checker, chain, i);
          return false;
        }
        if m.value.baseSnapshot != (if i == 0 then "" else c.snapshots[chain[i - 1]].name) {
          assert !ItemOk(l, c, view, checker, chain, i);
          return false;
        }
        var guids := CheckStream(l, key, m.value);
        if guids.None? {
          assert !ItemOk(l, c, view, checker, chain, i);
          return false;
        }
        items := items + [guids.value];
      }
      for i := 1 to |items|
        invariant forall k :: 0 < k < i ==> GuidsLink(items[k - 1], items[k])
      {
        var previous, current := items[i - 1], items[i];
        if previous.to == "" && current.from == "" {
          continue;
        }
        if previous.to == "" || current.from == "" || current.from != previous.to {
          assert !GuidsLink(items[i - 1], items[i]);
          return false;
        }
      }
      ValidRestores(l, c, view, checker, chain, s);
      ChainOkMatches(l, c, view, checker, chain, s);
      return true;
    }

    /** ValidateSnapshot: one snapshot, against its own row and its parent's. */
    method ValidateSnapshot(l: Lib, s: Id) returns (ok: bool)
      requires store.Valid()
      modifies store`keyCache
      ensures store.Valid() && (ok <==> SnapshotOk(l, repo.cat, store.View(), checker, s))
      ensures ok ==> Restored(l, store.View(), repo.cat.snapshots[s].manifestKey.value).Some?
      ensures ok ==> ItemMatches(l, repo.cat, store.View(), s)
    {
      hide Shows, Sound, CacheTrue, RowsAgree, HeadAgrees, WellFormed, MatchesCatalog, ObjectsMatch;
      var c := repo.cat;
      if s !in c.snapshots || c.snapshots[s].dataset !in c.datasets {
        return false;
      }
      var row := c.snapshots[s];
      if row.status != Committed || row.manifestKey.None? {
        return false;
      }
      var key := row.manifestKey.value;
      var m := VerifyManifestAndObjects(l, s, key);
      if m.None? || m.value.ds != c.datasets[row.dataset] || m.value.snapshot != row.name {
        return false;
      }
      var guids := CheckStream(l, key, m.value);
      if guids.None? {
        return false;
      }
      ReadMatches(l, store.View(), m.value.chunks);
      if row.fromGuid != "" && guids.value.from != "" && row.fromGuid != guids.value.from {
        return false;
      }
      if row.toGuid != "" && guids.value.to != "" && row.toGuid != guids.value.to {
        return false;
      }
      if row.parent.None? {
        return m.value.baseSnapshot == "";
      }
      var p := row.parent.value;
      if p !in c.snapshots || c.snapshots[p].dataset !in c.datasets {
        return false;
      }
      var parent := c.snapshots[p];
      if parent.status != Committed || m.value.baseSnapshot != parent.name {
        return false;
      }
      if parent.toGuid == "" && guids.value.from != "" {
        return false;
      }
      if guids.value.from == "" && parent.toGuid != "" {
        return false;
      }
      return !(parent.toGuid != "" && guids.value.from != "" && guids.value.from != parent.toGuid);
    }
  }

  // ---- one by one, or the chain as a whole ----

  predicate SameWhereBoth(a: string, b: string) {
    a == "" || b == "" || a == b
  }

  /** What ValidateSnapshot accepts. Its parent's GUID is the catalog's, where ValidateChain takes the stream's. */
  ghost predicate SnapshotOk(l: Lib, c: Catalog, store: Objects, checker: Checker, s: Id) {
    && s in c.snapshots && c.snapshots[s].dataset in c.datasets
    && var row := c.snapshots[s];
       && row.status == Committed && row.manifestKey.Some?
       && var m := Verified(l, c, store, s, row.manifestKey.value);
          && m.Some? && m.value.ds == c.datasets[row.dataset] && m.value.snapshot == row.name
          && var guids := Checked(l, store, checker, row.manifestKey.value, m.value);
             && guids.Some? && SameWhereBoth(row.fromGuid, guids.value.from) && SameWhereBoth(row.toGuid, guids.value.to)
             && (match row.parent
                 case None => m.value.baseSnapshot == ""
                 case Some(p) =>
                   && p in c.snapshots && c.snapshots[p].dataset in c.datasets && c.snapshots[p].status == Committed
                   && m.value.baseSnapshot == c.snapshots[p].name
                   && GuidsLink(Guids("", c.snapshots[p].toGuid), guids.value))
  }

  lemma {:induction false} ChainLinks(p: Parents, s: Id)
    requires Acyclic(p) && s in p
    ensures var chain := Chain(p, s);
      && chain != [] && chain[|chain| - 1] == s
      && (forall i :: 0 <= i < |chain| ==> chain[i] in p)
      && (forall i :: 0 < i < |chain| ==> p[chain[i]] == Some(chain[i - 1]))
      && (p[chain[0]].Some? ==> p[chain[0]].value !in p)
    decreases Measure(p, s)
  {
    hide Acyclic;
    if p[s].Some? && p[s].value in p {
      ChainLinks(p, p[s].value);
    }
  }

  lemma SnapshotMakesItem(l: Lib, c: Catalog, store: Objects, checker: Checker, chain: seq<Id>, i: nat)
    requires i < |chain| && SnapshotOk(l, c, store, checker, chain[i]) && (i > 0 ==> chain[i - 1] in c.snapshots)
    requires c.snapshots[chain[i]].parent == if i == 0 then None else Some(chain[i - 1])
    ensures ItemOk(l, c, store, checker, chain, i)
    ensures SameWhereBoth(c.snapshots[chain[i]].toGuid, GuidsAt(l, c, store, checker, chain, i).to)
    ensures i > 0 ==>
      GuidsLink(Guids("", c.snapshots[chain[i - 1]].toGuid), GuidsAt(l, c, store, checker, chain, i))
  {
    hide Verified, Checked;
  }

  ghost predicate AllItems(l: Lib, c: Catalog, store: Objects, checker: Checker, chain: seq<Id>) {
    forall i :: 0 <= i < |chain| ==> chain[i] in c.snapshots && ItemOk(l, c, store, checker, chain, i)
  }

  /** For each snapshot but the last, the catalog and the stream agree on whether there is a toguid at all. */
  ghost predicate ToGuidsAgree(l: Lib, c: Catalog, store: Objects, checker: Checker, chain: seq<Id>)
    requires AllItems(l, c, store, checker, chain)
  {
    forall i :: 0 <= i < |chain| - 1 ==>
      (c.snapshots[chain[i]].toGuid == "" <==> GuidsAt(l, c, store, checker, chain, i).to == "")
  }

  /** Snapshots that all pass on their own form a chain that passes as a whole if and only if, for each but the last,
      the catalog and the stream agree on whether there is a toguid at all. */
  lemma SnapshotsMakeChain(l: Lib, c: Catalog, store: Objects, checker: Checker, s: Id)
    requires Acyclic(ParentsOf(c.snapshots)) && s in c.snapshots
    requires var chain := Chain(ParentsOf(c.snapshots), s);
      forall i :: 0 <= i < |chain| ==> SnapshotOk(l, c, store, checker, chain[i])
    ensures var chain := Chain(ParentsOf(c.snapshots), s);
      && AllItems(l, c, store, checker, chain)
      && (ChainOk(l, c, store, checker, chain, s) <==> ToGuidsAgree(l, c, store, checker, chain))
  {
    hide SnapshotOk, Acyclic, Chain, ChainOk, ToGuidsAgree, AllItems;
    ChainLinks(ParentsOf(c.snapshots), s);
    PathMakesChain(l, c, store, checker, Chain(ParentsOf(c.snapshots), s), s);
  }

  lemma PathMakesChain(l: Lib, c: Catalog, store: Objects, checker: Checker, chain: seq<Id>, s: Id)
    requires chain != [] && chain[|chain| - 1] == s
    requires forall i :: 0 <= i < |chain| ==> chain[i] in c.snapshots && SnapshotOk(l, c, store, checker, chain[i])
    requires forall i :: 0 < i < |chain| ==> c.snapshots[chain[i]].parent == Some(chain[i - 1])
    requires c.snapshots[chain[0]].parent.Some? ==> c.snapshots[chain[0]].parent.value !in c.snapshots
    ensures AllItems(l, c, store, checker, chain)
    ensures ChainOk(l, c, store, checker, chain, s) <==> ToGuidsAgree(l, c, store, checker, chain)
  {
    hide ItemOk, GuidsAt, SnapshotOk;
    RootAlone(l, c, store, checker, chain[0]);
    forall i | 0 <= i < |chain|
      ensures ItemOk(l, c, store, checker, chain, i)
      ensures SameWhereBoth(c.snapshots[chain[i]].toGuid, GuidsAt(l, c, store, checker, chain, i).to)
      ensures i > 0 ==>
        GuidsLink(Guids("", c.snapshots[chain[i - 1]].toGuid), GuidsAt(l, c, store, checker, chain, i))
    {
      SnapshotMakesItem(l, c, store, checker, chain, i);
    }
    LinksCompared(l, c, store, checker, chain);
  }

  lemma RootAlone(l: Lib, c: Catalog, store: Objects, checker: Checker, root: Id)
    requires SnapshotOk(l, c, store, checker, root)
    requires c.snapshots[root].parent.Some? ==> c.snapshots[root].parent.value !in c.snapshots
    ensures c.snapshots[root].parent.None?
  {
    hide Verified, Checked;
  }

  lemma LinksCompared(l: Lib, c: Catalog, store: Objects, checker: Checker, chain: seq<Id>)
    requires forall i :: 0 <= i < |chain| ==> chain[i] in c.snapshots && ItemOk(l, c, store, checker, chain, i)
    requires forall i :: 0 <= i < |chain| ==>
      SameWhereBoth(c.snapshots[chain[i]].toGuid, GuidsAt(l, c, store, checker, chain, i).to)
    requires forall i :: 0 < i < |chain| ==>
      GuidsLink(Guids("", c.snapshots[chain[i - 1]].toGuid), GuidsAt(l, c, store, checker, chain, i))
    ensures (forall i :: 0 < i < |chain| ==>
               GuidsLink(GuidsAt(l, c, store, checker, chain, i - 1), GuidsAt(l, c, store, checker, chain, i)))
       <==> (forall i :: 0 <= i < |chain| - 1 ==>
               (c.snapshots[chain[i]].toGuid == "" <==> GuidsAt(l, c, store, checker, chain, i).to == ""))
  {
    hide ItemOk, GuidsAt;
    forall i | 0 < i < |chain|
      ensures GuidsLink(GuidsAt(l, c, store, checker, chain, i - 1), GuidsAt(l, c, store, checker, chain, i))
         <==> (c.snapshots[chain[i - 1]].toGuid == "" <==> GuidsAt(l, c, store, checker, chain, i - 1).to == "")
    {
    }
    if forall i :: 0 < i < |chain| ==>
         GuidsLink(GuidsAt(l, c, store, checker, chain, i - 1), GuidsAt(l, c, store, checker, chain, i)) {
      forall i | 0 <= i < |chain| - 1
        ensures c.snapshots[chain[i]].toGuid == "" <==> GuidsAt(l, c, store, checker, chain, i).to == ""
      {
        assert 0 < i + 1 < |chain|;
        assert GuidsLink(GuidsAt(l, c, store, checker, chain, i + 1 - 1), GuidsAt(l, c, store, checker, chain, i + 1));
      }
    }
  }

  predicate Indexed(m: Manifest) {
    forall i :: 0 <= i < |m.chunks| ==> m.chunks[i].index == i
  }

  lemma AcceptedIndexed(l: Lib, data: Bytes)
    requires Unmarshal(l, data).Some?
    ensures Indexed(Unmarshal(l, data).value)
  {
  }

  method Least(s: set<nat>) returns (least: nat)
    requires s != {}
    ensures least in s && forall x :: x in s ==> least <= x
  {
    least :| least in s;
    var rest := s - {least};
    while rest != {}
      invariant least in s && rest <= s && forall x :: x in s && x !in rest ==> least <= x
      decreases |rest|
    {
      var x :| x in rest;
      if x < least {
        least := x;
      }
      rest := rest - {x};
    }
  }

  /** An ascending list that holds exactly the numbers below n is 0, 1, ..., n - 1. */
  lemma {:induction false} Counting(list: seq<nat>, n: nat)
    requires forall i, j :: 0 <= i < j < |list| ==> list[i] < list[j]
    requires forall i :: 0 <= i < |list| ==> list[i] < n
    requires forall i: nat :: i < n ==> i in list
    ensures |list| == n && forall i :: 0 <= i < n ==> list[i] == i
    decreases |list|
  {
    if list == [] {
      assert n > 0 ==> n - 1 in list;
    } else {
      assert list[0] < n;
      assert n - 1 in list;
      var k := |list| - 1;
      assert list[k] == n - 1 by {
        var m :| 0 <= m < |list| && list[m] == n - 1;
        assert list[m] <= list[k];
      }
      var rest := list[..k];
      forall i: nat | i < n - 1 ensures i in rest {
        assert i in list;
        var j :| 0 <= j < |list| && list[j] == i;
        assert rest[j] == i;
      }
      Counting(rest, n - 1);
    }
  }
}
