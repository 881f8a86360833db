/** An upload that names nothing but its stream (internal/sshserver/server.go): names and GUIDs come from the begin
    record, the base from the catalog. */
module Server {
  import opened Base
  import opened Manifests
  import opened Catalogs
  import opened Lineage
  import opened Streams
  import opened Machine
  import opened Invariant
  import opened Envelopes
  import opened Puts
  import opened Readers
  import opened Repositories
  import opened IngestSteps
  import opened Ingest
  import opened AutoReceive
  import opened Lookups
  import opened GuidText
  import B = BeginRecords
  import Keys

  /** The base lookup: none for a full stream, otherwise any committed snapshot at the stream's fromguid, if there is
      one and the database answers. */
  method ChooseBase(repo: Repository, ds: DatasetName, fromGuid: string) returns (base: Result<string>)
    modifies repo`calls
    ensures match base
      case Ok(name) =>
        if fromGuid == "" || fromGuid == "0" then name == ""
        else exists s :: EndsAt(repo.cat, ds, fromGuid, s) && repo.cat.snapshots[s].name == name
      case Err => fromGuid != "" && fromGuid != "0"
                  && (repo.broken(old(repo.calls)) || forall s :: !EndsAt(repo.cat, ds, fromGuid, s))
  {
    if fromGuid == "" || fromGuid == "0" {
      return Ok("");
    }
    var up := repo.Statement();
    if !up {
      return Err;
    }
    var c := repo.cat;
    if s :| s in c.snapshots && c.snapshots[s].dataset in c.datasets && c.datasets[c.snapshots[s].dataset] == ds
            && c.snapshots[s].status == Committed && c.snapshots[s].toGuid == fromGuid {
      assert EndsAt(c, ds, fromGuid, s);
      return Ok(c.snapshots[s].name);
    }
    return Err;
  }

  // ---- what the head of a stream asks for ----

  /** The begin record at the head of the stream has names the server accepts. */
  ghost predicate Headed(source: string, stream: Bytes, o: B.Order, n: B.Name) {
    && B.IsRecord(stream, o, n) && Keys.ValidName(source)
    && Keys.ValidName(n.pool) && Keys.ValidDataset(n.dataset) && Keys.ValidName(n.snapshot)
  }

  /** The fromguid as a number; zero in a full stream. */
  function FromGuid(stream: Bytes, o: B.Order): nat
    requires |stream| >= 312
  {
    B.Read(o, stream[48..56])
  }

  /** The request carries the names, GUIDs and flags of the begin record. */
  ghost predicate FromHeader(source: string, stream: Bytes, o: B.Order, n: B.Name, req: Request) {
    && Headed(source, stream, o, n)
    && req.ds == DatasetName(source, n.pool, n.dataset) && req.name == n.snapshot
    && IsGuidText(req.fromGuid, FromGuid(stream, o)) && IsGuidText(req.toGuid, B.Read(o, stream[40..48]))
    && (req.raw <==> B.Bit(B.Read(o, stream[16..24]) / 4, 24))
    && (req.compressed <==> B.Bit(B.Read(o, stream[16..24]) / 4, 22))
  }

  /** Its base is none for a full stream, else the name of a committed snapshot that ended where the stream begins. */
  ghost predicate OnBase(c: Catalog, fromGuid: nat, req: Request) {
    if fromGuid == 0 then req.base == ""
    else exists s :: EndsAt(c, req.ds, req.fromGuid, s) && c.snapshots[s].name == req.base
  }

  /** Such a base exists. */
  ghost predicate BaseThere(c: Catalog, ds: DatasetName, fromGuid: nat) {
    fromGuid == 0 || exists text, s :: IsGuidText(text, fromGuid) && EndsAt(c, ds, text, s)
  }

  /** runAutoReceive gets as far as asking for the upload. */
  ghost predicate Asks(source: string, stream: Bytes, c: Catalog) {
    exists o, n :: Headed(source, stream, o, n)
                   && BaseThere(c, DatasetName(source, n.pool, n.dataset), FromGuid(stream, o))
  }

  ghost predicate AsksFor(source: string, stream: Bytes, c: Catalog, req: Request) {
    exists o, n :: FromHeader(source, stream, o, n, req) && OnBase(c, FromGuid(stream, o), req)
  }

  /** The begin record at the head of the stream names this dataset. */
  ghost predicate HeaderNames(source: string, stream: Bytes, ds: DatasetName) {
    exists o, n :: B.IsRecord(stream, o, n) && ds == DatasetName(source, n.pool, n.dataset)
  }

  /** None of the names in the begin record has a dot component. */
  ghost predicate HeaderDotFree(source: string, stream: Bytes) {
    forall o, n :: B.IsRecord(stream, o, n) ==> Keys.DotFree(DatasetName(source, n.pool, n.dataset), n.snapshot)
  }

  /** The head of a stream is a record in one way only. */
  lemma OneHeader(stream: Bytes, o: B.Order, n: B.Name, p: B.Order, m: B.Name)
    requires B.IsRecord(stream, o, n) && B.IsRecord(stream, p, m)
    ensures o == p && n == m
  {
    hide B.Read, B.CString, B.ValidName, B.SplitToName;
    B.MagicOneWay(stream[8..16]);
    B.SplitIsJoin(B.CString(stream[56..312]), n);
    B.SplitIsJoin(B.CString(stream[56..312]), m);
  }

  lemma HeadIsRecord(stream: Bytes, o: B.Order, n: B.Name)
    requires |stream| >= 312
    ensures B.IsRecord(stream[..312], o, n) <==> B.IsRecord(stream, o, n)
    ensures stream[..312][16..24] == stream[16..24] && stream[..312][40..48] == stream[40..48]
    ensures stream[..312][48..56] == stream[48..56]
  {
    hide B.Read, B.CString, B.ValidName;
    assert stream[..312][0..4] == stream[0..4] && stream[..312][8..16] == stream[8..16];
    assert stream[..312][56..312] == stream[56..312];
  }

  /** What ParseBegin makes of the first 312 bytes. */
  lemma Parsed(stream: Bytes) returns (o: B.Order, n: B.Name)
    requires |stream| >= 312
    ensures B.ParseBegin(stream[..312]).None? ==> forall p, m :: !B.IsRecord(stream, p, m)
    ensures B.ParseBegin(stream[..312]).Some? ==>
      B.IsRecord(stream, o, n) && B.Carries(B.ParseBegin(stream[..312]).value, stream, o, n)
  {
    hide B.ParseBegin, B.Read, B.CString, B.ValidName, IsGuidText, B.Bit;
    var h := stream[..312];
    if B.ParseBegin(h).Some? {
      B.ParsedRecord(h, B.ParseBegin(h).value);
      o, n :| B.IsRecord(h, o, n) && B.Carries(B.ParseBegin(h).value, h, o, n);
      HeadIsRecord(stream, o, n);
    } else {
      o, n := B.Little, B.Name("", "", "");
      forall p, m ensures !B.IsRecord(stream, p, m) {
        HeadIsRecord(stream, p, m);
        if B.IsRecord(h, p, m) {
          B.AlwaysParsed(h, p, m);
        }
      }
    }
  }

  /** From the header to the request: the record, the names, the base. Nothing is asked for when it is no record, a name
      is not accepted, there is no base for the fromguid, or the lookup fails. */
  method AskFor(repo: Repository, source: string, header: Bytes, ghost stream: Bytes) returns (request: Option<Request>)
    requires |stream| >= 312 && header == stream[..312]
    modifies repo`calls
    ensures request.Some? ==> Asks(source, stream, repo.cat) && AsksFor(source, stream, repo.cat, request.value)
    ensures (forall n :: !repo.broken(n)) ==> (request.Some? <==> Asks(source, stream, repo.cat))
    ensures request.Some? ==> BaseFits(repo.cat, request.value) && HeaderNames(source, stream, request.value.ds)
    ensures request.Some? && HeaderDotFree(source, stream) ==> Keys.Accepted(request.value.ds, request.value.name)
    ensures request.Some? ==> request.value.chunkSize == 0
  {
    hide B.IsRecord, B.Carries, B.ParseBegin, B.Read, Asks, AsksFor, IsGuidText, HeaderNames, EndsAt;
    hide Keys.ValidName, Keys.ValidDataset, Keys.Accepted, HeaderDotFree;
    ghost var o, n := Parsed(stream);
    var parsed := B.ParseBegin(header);
    if parsed.None? {
      NoRecord(source, stream, repo.cat);
      return None;
    }
    var begin := parsed.value;
    if !(Keys.ValidName(source) && Keys.ValidName(begin.pool) && Keys.ValidName(begin.snapshot)
         && Keys.ValidDataset(begin.dataset)) {
      BadNames(source, stream, repo.cat, begin, o, n);
      return None;
    }
    var ds := DatasetName(source, begin.pool, begin.dataset);
    ghost var calls := repo.calls;
    var base := ChooseBase(repo, ds, begin.fromGuid);
    if base.Err? {
      if forall n :: !repo.broken(n) {
        assert !repo.broken(calls);
        NoBase(source, stream, repo.cat, begin, o, n);
      }
      return None;
    }
    var asked := Request(ds, begin.snapshot, base.value, begin.raw, begin.compressed, begin.fromGuid, begin.toGuid, 0);
    AskedFor(source, stream, repo.cat, begin, o, n, asked);
    NamesDataset(source, stream, begin, o, n);
    if HeaderDotFree(source, stream) {
      NamedAndSafe(source, stream, begin, o, n);
    }
    return Some(asked);
  }

  /** runAutoReceive from the header on. It asks for an upload exactly when the stream begins with a record whose names
      the server accepts and, unless the fromguid is zero, a committed snapshot of the dataset ends there (and the
      database answers); and then
      under those names and GUIDs and on that base. What it starts is always such an upload. While the
      database fails no statement, it succeeds exactly when it asks, startUpload does not refuse, the stream arrives
      whole and every put lands. */
  method RunAutoReceive(s: Service, l: Lib, source: string, depth: int, r: Reader, luck: Luck, ghost w0: World)
    returns (res: Result<Receipt>, t: Option<Start>, ghost request: Option<Request>, ghost steps: seq<Step>, ghost w: World)
    requires Inv(l, w0) && s.Tied(w0) && Lawful(l) && FairLuck(luck)
    requires forall d :: d in w0.cat.datasets && HeaderNames(source, r.Rest(), w0.cat.datasets[d]) ==> !DeletingIn(w0, d)
    requires HeaderDotFree(source, r.Rest())
    modifies s.repo`cat, s.repo`calls, s.repo`issued, s.store`keyCache, s.store.base, r
    ensures Runs(l, w0, steps, w) && s.Tied(w)
    ensures IsRun(l, w0, steps) && AutoRun(l, w0, steps)
    ensures request.Some? ==> Asks(source, old(r.Rest()), old(s.repo.cat))
    ensures s.Unbroken() ==> (request.Some? <==> Asks(source, old(r.Rest()), old(s.repo.cat)))
    ensures request.Some? ==> AsksFor(source, old(r.Rest()), old(s.repo.cat), request.value)
    ensures t.Some? ==>
      && request.Some? && AutoStart(old(s.repo.cat), t.value)
      && t.value.req == request.value.(chunkSize := s.ChunkBytes())
    ensures res.Ok? ==> t.Some? && Received(l, s.repo.cat, s.store.View(), t.value, res.value, old(r.Rest()))
    ensures t.Some? ==> t.value.sess !in w.live && (res.Err? && s.Unbroken() ==> FailedIn(s.repo.cat, t.value))
    ensures t.None? ==> res.Err? && s.repo.cat == old(s.repo.cat) && s.store.View() == old(s.store.View())
    ensures Acyclic(ParentsOf(w0.cat.snapshots))
    ensures res.Ok? ==> s.Arrives(r, luck, |old(r.Rest())|)
    ensures s.Unbroken() ==>
      (res.Ok? <==>
         && request.Some? && s.Arrives(r, luck, |old(r.Rest())|) && !Refuses(w0.cat, request.value, depth)
         && AllLand(s.Backend(), old(s.store.base.calls), luck.weather, s.PutsFor(|old(r.Rest())|)))
  {
    hide Inv, Runs, Shows, Sound, CacheTrue, Concat, Refuses, Received, Admits, IsRun, AutoRun, AutoStart, OneStart;
    hide AllLand, Asks, AsksFor, HeaderNames, HeaderDotFree, Keys.Accepted, BaseFits, FailedIn;
    steps, w, t, request := [], w0, None, None;
    NoSteps(l, w0);
    RunsAuto(l, w0, [], w0, None);
    InvParts(l, w0);
    hide CatalogOk, IssuedOk, Acyclic;
    ghost var stream, c, issued := r.Rest(), s.repo.cat, s.repo.issued;
    var header, status := ReadFull(r, B.RECORD_SIZE);
    if status != Full {
      TooShort(source, stream, c);
      return Err, t, request, steps, w;
    }
    assert header == stream[..312];
    var asked := AskFor(s.repo, source, header, stream);
    request := asked;
    if asked.None? {
      return Err, t, request, steps, w;
    }
    var whole := new Reader([header] + r.segments, r.breaks);
    assert whole.Rest() == stream by {
      ConcatAppend([header], r.segments);
      ConcatOne(header);
    }
    res, t, steps, w := s.Receive(l, asked.value, 0, depth, whole, luck, w0);
    if t.Some? {
      assert AutoStart(c, t.value) by {
        StartedByGuid(c, issued, t.value, asked.value);
      }
    }
    RunsAuto(l, w0, steps, w, t);
  }

  predicate GoodNames(source: string, b: B.Begin) {
    Keys.ValidName(source) && Keys.ValidName(b.pool) && Keys.ValidName(b.snapshot) && Keys.ValidDataset(b.dataset)
  }

  lemma TooShort(source: string, stream: Bytes, c: Catalog)
    requires |stream| < 312
    ensures !Asks(source, stream, c)
  {
  }

  lemma NoRecord(source: string, stream: Bytes, c: Catalog)
    requires forall p, m :: !B.IsRecord(stream, p, m)
    ensures !Asks(source, stream, c)
  {
    hide B.IsRecord, BaseThere, Keys.ValidName, Keys.ValidDataset;
  }

  lemma BadNames(source: string, stream: Bytes, c: Catalog, b: B.Begin, o: B.Order, n: B.Name)
    requires B.IsRecord(stream, o, n) && B.Carries(b, stream, o, n)
    requires !GoodNames(source, b)
    ensures !Asks(source, stream, c)
  {
    hide B.IsRecord, BaseThere, Keys.ValidName, Keys.ValidDataset, IsGuidText, B.Read, B.Bit;
    forall p, m | Headed(source, stream, p, m) ensures false {
      OneHeader(stream, o, n, p, m);
    }
  }

  lemma NoBase(source: string, stream: Bytes, c: Catalog, b: B.Begin, o: B.Order, n: B.Name)
    requires B.IsRecord(stream, o, n) && B.Carries(b, stream, o, n)
    requires b.fromGuid != "0" && forall s :: !EndsAt(c, DatasetName(source, b.pool, b.dataset), b.fromGuid, s)
    ensures !Asks(source, stream, c)
  {
    hide Keys.ValidName, Keys.ValidDataset, B.Read, B.Bit, B.ValidName, B.CString, EndsAt, IsGuidText;
    var from := FromGuid(stream, o);
    B.ZeroText(b.fromGuid, from);
    FormatText(b.fromGuid, from);
    forall p, m | Headed(source, stream, p, m)
      ensures !BaseThere(c, DatasetName(source, m.pool, m.dataset), FromGuid(stream, p))
    {
      OneHeader(stream, o, n, p, m);
      forall text | IsGuidText(text, from) ensures text == b.fromGuid {
        FormatText(text, from);
      }
    }
  }

  lemma AskedFor(source: string, stream: Bytes, c: Catalog, b: B.Begin, o: B.Order, n: B.Name, req: Request)
    requires B.IsRecord(stream, o, n) && B.Carries(b, stream, o, n)
    requires GoodNames(source, b)
    requires req.ds == DatasetName(source, b.pool, b.dataset) && req.name == b.snapshot
    requires req.fromGuid == b.fromGuid && req.toGuid == b.toGuid && req.raw == b.raw && req.compressed == b.compressed
    requires BaseFits(c, req)
    ensures Asks(source, stream, c) && AsksFor(source, stream, c, req)
  {
    hide Keys.ValidName, Keys.ValidDataset, B.Read, B.Bit, B.ValidName, B.CString, IsGuidText;
    B.ZeroText(b.fromGuid, FromGuid(stream, o));
    assert Headed(source, stream, o, n) && FromHeader(source, stream, o, n, req);
    assert OnBase(c, FromGuid(stream, o), req) && BaseThere(c, req.ds, FromGuid(stream, o));
  }

  lemma NamesDataset(source: string, stream: Bytes, b: B.Begin, o: B.Order, n: B.Name)
    requires B.IsRecord(stream, o, n) && B.Carries(b, stream, o, n)
    ensures HeaderNames(source, stream, DatasetName(source, b.pool, b.dataset))
  {
    hide B.IsRecord, B.Read, B.Bit, IsGuidText;
  }

  lemma NamedAndSafe(source: string, stream: Bytes, b: B.Begin, o: B.Order, n: B.Name)
    requires B.IsRecord(stream, o, n) && B.Carries(b, stream, o, n) && HeaderDotFree(source, stream)
    requires GoodNames(source, b)
    ensures Keys.Accepted(DatasetName(source, b.pool, b.dataset), b.snapshot)
  {
    hide B.IsRecord, Keys.ValidName, Keys.ValidDataset, Keys.DotFree, B.Read, B.Bit, IsGuidText;
  }

  lemma RunsAuto(l: Lib, w0: World, steps: seq<Step>, w: World, t: Option<Start>)
    requires Runs(l, w0, steps, w)
    requires if t.Some? then OneStart(steps, t.value) && AutoStart(w0.cat, t.value) else steps == []
    ensures IsRun(l, w0, steps) && AutoRun(l, w0, steps)
  {
    hide Inv, Enabled, Apply, AutoStart;
    if t.Some? {
      HandlerRunIsAuto(l, w0, steps, t.value);
    }
  }

  /** The base is the name of a snapshot the fromguid finds. */
  ghost predicate BaseFits(c: Catalog, req: Request) {
    if req.fromGuid == "" || req.fromGuid == "0" then req.base == ""
    else exists s :: EndsAt(c, req.ds, req.fromGuid, s) && c.snapshots[s].name == req.base
  }

  lemma StartedByGuid(c: Catalog, issued: set<Id>, t: Start, req: Request)
    requires CatalogOk(c) && Admits(c, issued, t) && BaseFits(c, req)
    requires t.req.ds == req.ds && t.req.fromGuid == req.fromGuid && t.req.base == req.base
    ensures AutoStart(c, t)
  {
    hide CatalogOk, Chain, Blocked;
    if t.base.Some? {
      var s :| EndsAt(c, req.ds, req.fromGuid, s) && c.snapshots[s].name == req.base;
      BaseByGuid(c, issued, t, s);
    }
  }
}
