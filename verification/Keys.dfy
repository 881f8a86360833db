/** Object keys as strings (internal/storage/keys.go), and the names a client may use (internal/sshserver/command.go). */
module Keys {
  import opened Base
  import opened Manifests
  import opened Numerals
  import opened Paths
  import opened Streams

  // ---- validateName, validateDataset ----

  predicate SafeChar(c: char) {
    'a' <= c <= 'z' || 'A' <= c <= 'Z' || '0' <= c <= '9' || c in {'.', '_', '-', ':'}
  }

  predicate ValidName(s: string) {
    s != "" && '/' !in s && s[0] != '@' && forall i :: 0 <= i < |s| ==> SafeChar(s[i])
  }

  predicate ValidDataset(s: string) {
    && s != "" && s[0] != '/' && s[|s| - 1] != '/'
    && var parts := SplitSlash(s); forall i :: 0 <= i < |parts| ==> ValidName(parts[i])
  }

  predicate NoDots(s: string) {
    s != "." && s != ".."
  }

  /** The names the server accepts. */
  predicate ValidNames(ds: DatasetName, snapshot: string) {
    ValidName(ds.source) && ValidName(ds.pool) && ValidDataset(ds.path) && ValidName(snapshot)
  }

  /** No component is "." or "..". */
  predicate DotFree(ds: DatasetName, snapshot: string) {
    && NoDots(ds.source) && NoDots(ds.pool) && NoDots(snapshot)
    && var parts := SplitSlash(ds.path); forall i :: 0 <= i < |parts| ==> NoDots(parts[i])
  }

  predicate Accepted(ds: DatasetName, snapshot: string) {
    ValidNames(ds, snapshot) && DotFree(ds, snapshot)
  }

  /** The three tests of validateName amount to one on ASCII codes: hyphen and dot, digits and colon, capital letters,
      underscore, small letters. */
  lemma ValidNameIs(s: string)
    ensures ValidName(s) <==>
      s != "" && forall i :: 0 <= i < |s| ==>
        var n := s[i] as int; 45 <= n <= 46 || 48 <= n <= 58 || 65 <= n <= 90 || n == 95 || 97 <= n <= 122
  {
  }

  /** validateDataset accepts exactly the valid names joined by single slashes. */
  lemma ValidDatasetIs(s: string)
    ensures ValidDataset(s) <==>
      exists parts :: parts != [] && (forall i :: 0 <= i < |parts| ==> ValidName(parts[i])) && s == JoinSlash(parts)
  {
    hide ValidName, SplitSlash, JoinSlash;
    if ValidDataset(s) {
      JoinSplit(s);
      assert s == JoinSlash(SplitSlash(s));
    }
    if parts :| parts != [] && (forall i :: 0 <= i < |parts| ==> ValidName(parts[i])) && s == JoinSlash(parts) {
      JoinedNames(parts);
      SplitJoin(parts);
    }
  }

  lemma {:induction false} JoinedNames(parts: seq<string>)
    requires parts != [] && forall i :: 0 <= i < |parts| ==> ValidName(parts[i])
    ensures AllSlashFree(parts)
    ensures var s := JoinSlash(parts); s != "" && s[0] != '/' && s[|s| - 1] != '/'
  {
    var k := |parts| - 1;
    assert ValidName(parts[k]) && SafeChar(parts[k][|parts[k]| - 1]);
    if k > 0 {
      JoinedNames(parts[..k]);
    }
  }

  // ---- encodeComponent ----

  /** Section 2.1 of RFC 3986, in upper case. */
  function HexDigit(d: nat): char
    requires d < 16
  {
    "0123456789ABCDEF"[d]
  }

  function HexValue(c: char): nat {
    if '0' <= c <= '9' then (c - '0') as int else if 'A' <= c <= 'F' then (c - 'A') as int + 10 else 0
  }

  /** The bytes url.PathEscape leaves alone in a path segment. */
  predicate Kept(c: char) {
    || 'a' <= c <= 'z' || 'A' <= c <= 'Z' || '0' <= c <= '9'
    || c in {'-', '_', '.', '~', '$', '&', '+', ':', '=', '@'}
  }

  /** The same on ASCII codes: dollar, ampersand, plus, hyphen and dot, digits and colon, equals, at and capital
      letters, underscore, small letters, tilde. */
  lemma KeptIs(c: char)
    ensures Kept(c) <==>
      var n := c as int;
      || n in {36, 38, 43, 61, 95, 126}
      || 45 <= n <= 46 || 48 <= n <= 58 || 64 <= n <= 90 || 97 <= n <= 122
  {
  }

  /** A Go string: a sequence of bytes. */
  predicate ByteString(s: string) {
    forall i :: 0 <= i < |s| ==> s[i] as int < 256
  }

  function EscapeChar(c: char): string
    requires c as int < 256
  {
    if Kept(c) then [c] else ['%', HexDigit(c as int / 16), HexDigit(c as int % 16)]
  }

  function PathEscape(s: string): string
    requires ByteString(s)
  {
    if s == "" then "" else PathEscape(s[..|s| - 1]) + EscapeChar(s[|s| - 1])
  }

  function ReplaceAt(s: string): string {
    if s == "" then "" else ReplaceAt(s[..|s| - 1]) + (if s[|s| - 1] == '@' then "%40" else [s[|s| - 1]])
  }

  predicate SafeComponent(s: string) {
    s != "" && forall i :: 0 <= i < |s| ==> SafeChar(s[i])
  }

  function EncodeComponent(s: string): string
    requires ByteString(s)
  {
    if SafeComponent(s) && s[0] != '@' then s else ReplaceAt(PathEscape(s))
  }

  /** Percent-encoding with the at sign encoded too, byte by byte. */
  function Percent(c: char): string
    requires c as int < 256
  {
    if c == '@' then "%40" else EscapeChar(c)
  }

  function PercentEncode(s: string): string
    requires ByteString(s)
  {
    if s == "" then "" else PercentEncode(s[..|s| - 1]) + Percent(s[|s| - 1])
  }

  lemma {:induction false} ReplaceAppend(a: string, b: string)
    ensures ReplaceAt(a + b) == ReplaceAt(a) + ReplaceAt(b)
    decreases |b|
  {
    if b == "" {
      assert a + b == a;
    } else {
      assert (a + b)[..|a + b| - 1] == a + b[..|b| - 1];
      ReplaceAppend(a, b[..|b| - 1]);
    }
  }

  lemma ReplaceChar(c: char)
    requires c as int < 256
    ensures ReplaceAt(EscapeChar(c)) == Percent(c)
  {
    var e := EscapeChar(c);
    if Kept(c) {
      assert e[..0] == "";
    } else {
      var h1, h2 := HexDigit(c as int / 16), HexDigit(c as int % 16);
      assert e[..2] == ['%', h1] && e[..2][..1] == ['%'] && e[..1][..0] == "";
      assert h1 != '@' && h2 != '@';
      assert ReplaceAt(['%']) == "%" by { assert ['%'][..0] == ""; }
      assert ReplaceAt(['%', h1]) == ['%', h1];
    }
  }

  lemma {:induction false} EscapeThenReplace(s: string)
    requires ByteString(s)
    ensures ReplaceAt(PathEscape(s)) == PercentEncode(s)
  {
    if s != "" {
      var k := |s| - 1;
      EscapeThenReplace(s[..k]);
      ReplaceAppend(PathEscape(s[..k]), EscapeChar(s[k]));
      ReplaceChar(s[k]);
    }
  }

  lemma SafeKept(c: char)
    requires SafeChar(c)
    ensures c as int < 256 && Percent(c) == [c]
  {
  }

  lemma {:induction false} SafeUnchanged(s: string)
    requires ByteString(s) && forall i :: 0 <= i < |s| ==> SafeChar(s[i])
    ensures PercentEncode(s) == s
  {
    hide Percent, SafeChar;
    if s != "" {
      var k := |s| - 1;
      SafeUnchanged(s[..k]);
      SafeKept(s[k]);
      assert s == s[..k] + [s[k]];
    }
  }

  /** The shortcut for safe components and the general path are one and the same percent-encoding. */
  lemma EncodeIsPercent(s: string)
    requires ByteString(s)
    ensures EncodeComponent(s) == PercentEncode(s)
  {
    if SafeComponent(s) && s[0] != '@' {
      SafeUnchanged(s);
    } else {
      EscapeThenReplace(s);
    }
  }

  function Decode(s: string): string {
    if |s| >= 3 && s[|s| - 3] == '%'
    then Decode(s[..|s| - 3]) + [(HexValue(s[|s| - 2]) * 16 + HexValue(s[|s| - 1])) as char]
    else if s == "" then ""
    else Decode(s[..|s| - 1]) + [s[|s| - 1]]
  }

  lemma HexRoundTrip(d: nat)
    requires d < 16
    ensures HexValue(HexDigit(d)) == d && HexDigit(d) != '%' && HexDigit(d) != '/' && HexDigit(d) != '@'
  {
  }

  /** An encoding has no slash and no at sign, and it never ends inside an escape. */
  lemma {:induction false} PercentShape(s: string)
    requires ByteString(s)
    ensures var e := PercentEncode(s);
      && '/' !in e && '@' !in e && (s != "" ==> e != "")
      && (|e| >= 1 ==> e[|e| - 1] != '%') && (|e| >= 2 ==> e[|e| - 2] != '%')
  {
    if s != "" {
      PercentShape(s[..|s| - 1]);
      CharShape(s[|s| - 1]);
    }
  }

  lemma DecodeEscape(before: string, last: string)
    requires |last| == 3 && last[0] == '%'
    ensures Decode(before + last) == Decode(before) + [(HexValue(last[1]) * 16 + HexValue(last[2])) as char]
  {
    var e := before + last;
    assert e[..|e| - 3] == before;
  }

  lemma DecodePlain(before: string, c: char)
    requires |before| >= 2 ==> before[|before| - 2] != '%'
    ensures Decode(before + [c]) == Decode(before) + [c]
  {
    var e := before + [c];
    assert e[..|e| - 1] == before;
  }

  /** Decoding undoes encoding. */
  lemma {:induction false} PercentRoundTrip(s: string)
    requires ByteString(s)
    ensures Decode(PercentEncode(s)) == s
  {
    hide Decode, HexValue, Percent;
    if s == "" {
      DecodeNothing();
    } else {
      var k := |s| - 1;
      PercentRoundTrip(s[..k]);
      PercentShape(s[..k]);
      CharShape(s[k]);
      assert s == s[..k] + [s[k]];
      if |Percent(s[k])| == 3 {
        DecodeEscape(PercentEncode(s[..k]), Percent(s[k]));
      } else {
        DecodePlain(PercentEncode(s[..k]), s[k]);
      }
    }
  }

  lemma DecodeNothing()
    ensures Decode("") == ""
  {
  }

  /** encodeComponent is one-to-one on all strings. */
  lemma EncodeInjective(a: string, b: string)
    requires ByteString(a) && ByteString(b) && EncodeComponent(a) == EncodeComponent(b)
    ensures a == b
  {
    EncodeIsPercent(a);
    EncodeIsPercent(b);
    PercentRoundTrip(a);
    PercentRoundTrip(b);
  }

  lemma CharShape(c: char)
    requires c as int < 256
    ensures var e := Percent(c); '/' !in e && '@' !in e && (|e| == 1 || |e| == 3)
    ensures |Percent(c)| == 1 ==> Percent(c) == [c] && c != '%'
    ensures |Percent(c)| == 3 ==>
      && Percent(c)[0] == '%' && Percent(c)[1] != '%' && Percent(c)[2] != '%'
      && HexValue(Percent(c)[1]) * 16 + HexValue(Percent(c)[2]) == c as int
  {
    if c != '@' && !Kept(c) {
      HexRoundTrip(c as int / 16);
      HexRoundTrip(c as int % 16);
    }
  }

  // ---- the key builder ----

  function EncodeAll(parts: seq<string>): seq<string>
    requires forall i :: 0 <= i < |parts| ==> ByteString(parts[i])
  {
    seq(|parts|, i requires 0 <= i < |parts| => EncodeComponent(parts[i]))
  }

  predicate ByteName(ds: DatasetName, snapshot: string) {
    && ByteString(ds.source) && ByteString(ds.pool) && ByteString(snapshot)
    && var parts := NonEmpty(SplitSlash(ds.path)); forall i :: 0 <= i < |parts| ==> ByteString(parts[i])
  }

  /** strings.Trim(RootPrefix, "/"). */
  function TrimLeading(s: string): string {
    if s != "" && s[0] == '/' then TrimLeading(s[1..]) else s
  }

  function TrimSlashes(s: string): string {
    TrimTrailing(TrimLeading(s))
  }

  lemma {:induction false} TrimLeadingIs(s: string)
    ensures |TrimLeading(s)| <= |s| && TrimLeading(s) == s[|s| - |TrimLeading(s)|..]
    ensures TrimLeading(s) != "" ==> TrimLeading(s)[0] != '/'
    ensures forall i :: 0 <= i < |s| - |TrimLeading(s)| ==> s[i] == '/'
  {
    if s != "" && s[0] == '/' {
      TrimLeadingIs(s[1..]);
    }
  }

  predicate AllSlashes(s: string) {
    forall i :: 0 <= i < |s| ==> s[i] == '/'
  }

  /** The root prefix loses the slashes at both its ends and nothing else. */
  lemma TrimSlashesIs(root: string)
    ensures var t := TrimSlashes(root); t != "" ==> t[0] != '/' && t[|t| - 1] != '/'
    ensures exists before, after :: AllSlashes(before) && AllSlashes(after) && root == before + TrimSlashes(root) + after
  {
    TrimLeadingIs(root);
    var rest := TrimLeading(root);
    TrimTrailingIs(rest);
    var t := TrimTrailing(rest);
    assert TrimSlashes(root) == t;
    hide TrimLeading, TrimTrailing;
    var before, after := root[..|root| - |rest|], rest[|t|..];
    assert AllSlashes(before) && AllSlashes(after);
    assert rest == t + after && root == before + rest;
    assert before + t + after == before + (t + after);
  }

  function DatasetParts(ds: DatasetName): seq<string>
    requires ByteName(ds, "")
  {
    ["sources", EncodeComponent(ds.source), "pools", EncodeComponent(ds.pool), "datasets"]
    + EncodeAll(NonEmpty(SplitSlash(ds.path)))
  }

  function DatasetPrefix(root: string, ds: DatasetName): string
    requires ByteName(ds, "")
  {
    PathJoin([TrimSlashes(root)] + DatasetParts(ds))
  }

  function SnapshotPrefix(root: string, ds: DatasetName, snapshot: string): string
    requires ByteName(ds, snapshot)
  {
    PathJoin([DatasetPrefix(root, ds)] + ["@snapshots", EncodeComponent(snapshot)])
  }

  function ChunkFile(index: nat): string {
    Padded(index, 12) + ".zfschunk"
  }

  const MANIFEST_FILE := "manifest.json"

  function Render(root: string, key: Key): string
    requires ByteName(key.ds, key.snapshot)
  {
    var prefix := SnapshotPrefix(root, key.ds, key.snapshot);
    match key
    case ChunkKey(_, _, index) => PathJoin([prefix] + ["chunks", ChunkFile(index)])
    case ManifestKey(_, _) => PathJoin([prefix] + [MANIFEST_FILE])
  }

  /** DatasetPrefix's loop over the dataset's components. */
  method BuildDatasetPrefix(root: string, ds: DatasetName) returns (prefix: string)
    requires ByteName(ds, "")
    ensures prefix == DatasetPrefix(root, ds)
  {
    hide EncodeComponent, SplitSlash, TrimSlashes, PathJoin;
    var parts := [TrimSlashes(root), "sources", EncodeComponent(ds.source), "pools", EncodeComponent(ds.pool), "datasets"];
    ghost var fixed := parts;
    var split := SplitSlash(ds.path);
    ghost var all := NonEmpty(split);
    for i := 0 to |split|
      invariant NonEmpty(split[..i]) <= all
      invariant parts == fixed + EncodeAll(NonEmpty(split[..i]))
    {
      assert split[..i + 1][..i] == split[..i];
      NonEmptyPrefix(split, i + 1);
      if split[i] != "" {
        assert NonEmpty(split[..i + 1]) == NonEmpty(split[..i]) + [split[i]];
        assert all[|NonEmpty(split[..i])|] == split[i];
        parts := parts + [EncodeComponent(split[i])];
      }
    }
    assert split[..|split|] == split;
    assert parts == [TrimSlashes(root)] + DatasetParts(ds);
    prefix := PathJoin(parts);
  }

  lemma {:induction false} NonEmptyPrefix(parts: seq<string>, i: nat)
    requires i <= |parts|
    ensures NonEmpty(parts[..i]) <= NonEmpty(parts)
    decreases |parts|
  {
    if i == |parts| {
      assert parts[..i] == parts;
    } else {
      var k := |parts| - 1;
      NonEmptyPrefix(parts[..k], i);
      assert parts[..k][..i] == parts[..i];
    }
  }

  // ---- accepted names ----

  lemma ValidEncodes(s: string)
    requires ValidName(s)
    ensures ByteString(s) && EncodeComponent(s) == s && s != "" && SlashFree(s) && (NoDots(s) ==> Plain(s))
  {
    forall i | 0 <= i < |s| ensures s[i] as int < 256 {
      assert SafeChar(s[i]);
    }
  }

  /** The server's own check leaves nothing for encodeComponent to do. */
  lemma ValidDatasetParts(ds: DatasetName, snapshot: string)
    requires ValidNames(ds, snapshot)
    ensures ByteName(ds, snapshot) && ByteName(ds, "") && EncodeComponent(snapshot) == snapshot
    ensures DatasetParts(ds) == ["sources", ds.source, "pools", ds.pool, "datasets"] + SplitSlash(ds.path)
    ensures AllNonEmpty(DatasetParts(ds)) && AllSlashFree(DatasetParts(ds))
    ensures DotFree(ds, snapshot) ==> AllPlain(DatasetParts(ds))
  {
    hide EncodeComponent, SplitSlash;
    var parts := SplitSlash(ds.path);
    forall i | 0 <= i < |parts|
      ensures ByteString(parts[i]) && EncodeComponent(parts[i]) == parts[i] && parts[i] != "" && SlashFree(parts[i])
      ensures NoDots(parts[i]) ==> Plain(parts[i])
    {
      ValidEncodes(parts[i]);
    }
    NonEmptyAll(parts);
    ValidEncodes(ds.source);
    ValidEncodes(ds.pool);
    ValidEncodes(snapshot);
    assert EncodeAll(parts) == parts;
    FixedPlain();
  }

  lemma AcceptedBytes(ds: DatasetName, snapshot: string)
    requires Accepted(ds, snapshot)
    ensures ByteName(ds, snapshot)
  {
    hide ByteName, ValidNames, DotFree, DatasetParts;
    ValidDatasetParts(ds, snapshot);
  }

  lemma FixedPlain()
    ensures Plain("sources") && Plain("pools") && Plain("datasets") && Plain("@snapshots") && Plain("chunks")
    ensures Plain(MANIFEST_FILE)
  {
  }

  function File(key: Key): seq<string> {
    match key
    case ChunkKey(_, _, index) => ["chunks", ChunkFile(index)]
    case ManifestKey(_, _) => [MANIFEST_FILE]
  }

  /** All the parts of a key below the root prefix. */
  function Parts(key: Key): seq<string> {
    ["sources", key.ds.source, "pools", key.ds.pool, "datasets"] + SplitSlash(key.ds.path)
    + ["@snapshots", key.snapshot] + File(key)
  }

  lemma FilePlain(key: Key)
    ensures AllPlain(File(key))
  {
    if key.ChunkKey? {
      var f := ChunkFile(key.index);
      PaddedValue(key.index, 12);
      forall i | 0 <= i < |f| ensures f[i] != '/' {
        if i < |f| - 9 {
          assert f[i] == Padded(key.index, 12)[i];
        }
      }
      assert |f| > 9;
    }
  }

  /** The components path.Join leaves of a key: those of the root prefix, then the key's own, "." dropped and ".."
      taking back the one before. */
  function Components(root: string, key: Key): seq<string> {
    Cleaned(PrefixParts(TrimSlashes(root)), Parts(key))
  }

  /** For every name the server accepts, the nested joins amount to cleaning one list of components. */
  lemma RenderCleaned(root: string, key: Key)
    requires ValidNames(key.ds, key.snapshot)
    ensures ByteName(key.ds, key.snapshot)
    ensures Components(root, key) != [] && IsClean(Components(root, key))
    ensures Render(root, key) == JoinSlash(Components(root, key))
  {
    hide SplitSlash, JoinSlash, Cleaned, EncodeComponent, PathJoin, PrefixParts, TrimSlashes, IsClean;
    hide DatasetParts, ValidNames, ByteName, ChunkFile;
    ValidDatasetParts(key.ds, key.snapshot);
    var r := PrefixParts(TrimSlashes(root));
    var d := DatasetParts(key.ds);
    var p := ["@snapshots", key.snapshot];
    var f := File(key);
    var rd, rdp := Cleaned(r, d), Cleaned(Cleaned(r, d), p);
    SnapshotParts(key);
    FilePlain(key);
    JoinUnder(TrimSlashes(root), d);
    CleanedPrefix(rd);
    JoinUnder(DatasetPrefix(root, key.ds), p);
    CleanedPrefix(rdp);
    JoinUnder(SnapshotPrefix(root, key.ds, key.snapshot), f);
    CleanedAppend(r, d, p);
    CleanedAppend(r, d + p, f);
    PlainPushes(rdp, f);
    assert Parts(key) == d + p + f;
  }

  lemma SnapshotParts(key: Key)
    requires ValidNames(key.ds, key.snapshot)
    ensures AllNonEmpty(["@snapshots", key.snapshot]) && AllSlashFree(["@snapshots", key.snapshot])
  {
    ValidEncodes(key.snapshot);
    FixedPlain();
  }

  /** Under one root prefix, two keys of names the server accepts are one string if and only if their cleaned
      components are equal. */
  lemma RenderAlike(root: string, a: Key, b: Key)
    requires ValidNames(a.ds, a.snapshot) && ValidNames(b.ds, b.snapshot)
    ensures ByteName(a.ds, a.snapshot) && ByteName(b.ds, b.snapshot)
    ensures Render(root, a) == Render(root, b) <==> Components(root, a) == Components(root, b)
  {
    hide Render, JoinSlash, Components, ValidNames, ByteName;
    RenderCleaned(root, a);
    RenderCleaned(root, b);
    if Render(root, a) == Render(root, b) {
      JoinInjective(Components(root, a), Components(root, b));
    }
  }

  /** Without dot components nothing is cleaned away. */
  lemma RenderIsJoin(root: string, key: Key)
    requires Accepted(key.ds, key.snapshot)
    ensures ByteName(key.ds, key.snapshot)
    ensures IsClean(PrefixParts(TrimSlashes(root))) && AllPlain(Parts(key))
    ensures Components(root, key) == PrefixParts(TrimSlashes(root)) + Parts(key)
    ensures Render(root, key) == JoinSlash(PrefixParts(TrimSlashes(root)) + Parts(key))
  {
    hide Render, SplitSlash, JoinSlash, Cleaned, PrefixParts, TrimSlashes, DatasetParts, ByteName, ValidNames, DotFree;
    RenderCleaned(root, key);
    ValidDatasetParts(key.ds, key.snapshot);
    PartsPlain(key, DatasetParts(key.ds));
    PlainPushes(PrefixParts(TrimSlashes(root)), Parts(key));
    PrefixClean(TrimSlashes(root));
  }

  lemma PrefixClean(prefix: string)
    ensures IsClean(PrefixParts(prefix))
  {
    SplitSlashFree(prefix);
    EmptyClean();
    CleanedIsClean([], SplitSlash(prefix));
  }

  lemma PartsPlain(key: Key, d: seq<string>)
    requires Accepted(key.ds, key.snapshot)
    requires d == ["sources", key.ds.source, "pools", key.ds.pool, "datasets"] + SplitSlash(key.ds.path) && AllPlain(d)
    ensures AllPlain(Parts(key))
  {
    hide SplitSlash;
    ValidEncodes(key.snapshot);
    FixedPlain();
    FilePlain(key);
    assert Parts(key) == d + ["@snapshots", key.snapshot] + File(key);
  }

  /** The file of a chunk: its index in decimal, in twelve digits or as many as it takes, and the suffix. */
  lemma ChunkFileIs(index: nat)
    ensures var f := ChunkFile(index); var n := |f| - 9;
      && n >= 12 && f[n..] == ".zfschunk" && (n > 12 ==> f[0] != '0')
      && (forall i :: 0 <= i < n ==> '0' <= f[i] <= '9') && Value(f[..n], 10) == index
  {
    PaddedValue(index, 12);
    PaddedWidth(index, 12);
    var p, f := Padded(index, 12), ChunkFile(index);
    assert f[..|f| - 9] == p;
    forall i | 0 <= i < |p| ensures '0' <= f[i] <= '9' {
      assert f[i] == p[i] && DigitValue(p[i]) < 10;
    }
  }

  lemma FilesDiffer(index: nat)
    ensures ChunkFile(index) != MANIFEST_FILE
  {
    var f := ChunkFile(index);
    assert f[|f| - 1] == 'k' && MANIFEST_FILE[12] == 'n';
  }

  lemma FileInjective(i: nat, j: nat)
    requires ChunkFile(i) == ChunkFile(j)
    ensures i == j
  {
    assert ChunkFile(i)[..|ChunkFile(i)| - 9] == Padded(i, 12);
    assert ChunkFile(j)[..|ChunkFile(j)| - 9] == Padded(j, 12);
    PaddedInjective(i, j, 12);
  }

  lemma Slices<T>(a: seq<T>, b: seq<T>, c: seq<T>)
    ensures (a + b + c)[..|a|] == a && (a + b + c)[|a|..|a| + |b|] == b && (a + b + c)[|a| + |b|..] == c
  {
  }

  lemma PartsInjective(a: Key, b: Key)
    requires Parts(a) == Parts(b)
    ensures a == b
  {
    hide ChunkFile, SplitSlash;
    var x, y := Parts(a), Parts(b);
    assert x[|x| - 1] == y[|y| - 1];
    if a.ChunkKey? { FilesDiffer(a.index); }
    if b.ChunkKey? { FilesDiffer(b.index); }
    assert a.ChunkKey? <==> b.ChunkKey?;
    var ha := ["sources", a.ds.source, "pools", a.ds.pool, "datasets"];
    var hb := ["sources", b.ds.source, "pools", b.ds.pool, "datasets"];
    var ta, tb := ["@snapshots", a.snapshot] + File(a), ["@snapshots", b.snapshot] + File(b);
    var sa, sb := SplitSlash(a.ds.path), SplitSlash(b.ds.path);
    assert x == ha + sa + ta && y == hb + sb + tb;
    assert |sa| == |sb|;
    Slices(ha, sa, ta);
    Slices(hb, sb, tb);
    SameEnds(a, b, ha, hb, ta, tb);
    SplitSlashFree(a.ds.path);
    SplitSlashFree(b.ds.path);
  }

  lemma SameEnds(a: Key, b: Key, ha: seq<string>, hb: seq<string>, ta: seq<string>, tb: seq<string>)
    requires a.ChunkKey? <==> b.ChunkKey?
    requires ha == ["sources", a.ds.source, "pools", a.ds.pool, "datasets"] == hb
    requires hb == ["sources", b.ds.source, "pools", b.ds.pool, "datasets"]
    requires ta == ["@snapshots", a.snapshot] + File(a) == tb && tb == ["@snapshots", b.snapshot] + File(b)
    ensures a.ds.source == b.ds.source && a.ds.pool == b.ds.pool && a.snapshot == b.snapshot
    ensures a.ChunkKey? ==> a.index == b.index
  {
    hide ChunkFile;
    assert ha[1] == hb[1] && ha[3] == hb[3] && ta[1] == tb[1];
    if a.ChunkKey? {
      assert ta[3] == tb[3];
      FileInjective(a.index, b.index);
    }
  }

  /** Under one root prefix, keys of accepted names without dot components never collide: neither two chunks, nor two
      manifests, nor a chunk and a manifest. */
  lemma RenderInjective(root: string, a: Key, b: Key)
    requires Accepted(a.ds, a.snapshot) && Accepted(b.ds, b.snapshot)
    requires ByteName(a.ds, a.snapshot) && ByteName(b.ds, b.snapshot) && Render(root, a) == Render(root, b)
    ensures a == b
  {
    hide Render, JoinSlash, Parts, PrefixParts, TrimSlashes, Components, Cleaned, ByteName, ValidNames, DotFree;
    RenderAlike(root, a, b);
    RenderIsJoin(root, a);
    RenderIsJoin(root, b);
    var r := PrefixParts(TrimSlashes(root));
    assert (r + Parts(a))[|r|..] == Parts(a) && (r + Parts(b))[|r|..] == Parts(b);
    PartsInjective(a, b);
  }

  /** isPlaintextMetadataKey. */
  predicate PlaintextMetadata(key: string) {
    PathBase(key) == MANIFEST_FILE
  }

  /** For every name the server accepts, a key counts as plaintext metadata exactly when it is a manifest's; no chunk
      key ever does. */
  lemma OnlyManifestsArePlaintext(root: string, key: Key)
    requires ValidNames(key.ds, key.snapshot)
    ensures ByteName(key.ds, key.snapshot) && (PlaintextMetadata(Render(root, key)) <==> key.ManifestKey?)
  {
    hide Render, JoinSlash, ValidNames, ByteName, ChunkFile, PathBase, Components;
    RenderCleaned(root, key);
    EndsInFile(root, key);
    FilePlain(key);
    BaseOfJoined(Components(root, key));
    if key.ChunkKey? {
      FilesDiffer(key.index);
    }
  }

  /** Whatever is cleaned away before it, the file name stays. */
  lemma EndsInFile(root: string, key: Key)
    ensures var c, f := Components(root, key), File(key); c != [] && c[|c| - 1] == f[|f| - 1]
  {
    hide Cleaned, PrefixParts, TrimSlashes, SplitSlash, ChunkFile;
    var r := PrefixParts(TrimSlashes(root));
    var head := ["sources", key.ds.source, "pools", key.ds.pool, "datasets"] + SplitSlash(key.ds.path)
                + ["@snapshots", key.snapshot];
    FilePlain(key);
    CleanedAppend(r, head, File(key));
    PlainPushes(Cleaned(r, head), File(key));
  }

  // ---- the store by strings ----

  /** A store under string keys holds what the store under structured keys holds, and nothing else. */
  ghost predicate Mirrors(root: string, store: Objects, files: map<string, Bytes>) {
    && (forall k :: k in store ==>
          Accepted(k.ds, k.snapshot) && ByteName(k.ds, k.snapshot) && Render(root, k) in files
          && files[Render(root, k)] == store[k])
    && (forall f :: f in files ==> exists k :: k in store && ByteName(k.ds, k.snapshot) && Render(root, k) == f)
  }

  /** Putting, deleting and getting by rendered key is putting, deleting and getting by structured key. */
  lemma MirrorsOperations(root: string, store: Objects, files: map<string, Bytes>, key: Key, data: Bytes)
    requires Mirrors(root, store, files) && Accepted(key.ds, key.snapshot) && ByteName(key.ds, key.snapshot)
    ensures Mirrors(root, store[key := data], files[Render(root, key) := data])
    ensures Mirrors(root, store - {key}, files - {Render(root, key)})
    ensures key in store <==> Render(root, key) in files
    ensures key in store ==> store[key] == files[Render(root, key)]
  {
    hide Render, Accepted, ByteName;
    forall k | k in store && Render(root, k) == Render(root, key) ensures k == key {
      RenderInjective(root, k, key);
    }
    var put, cut := files[Render(root, key) := data], files - {Render(root, key)};
    forall f | f in put ensures exists k :: k in store[key := data] && ByteName(k.ds, k.snapshot) && Render(root, k) == f {
      if f == Render(root, key) {
        assert key in store[key := data];
      } else {
        var k :| k in store && ByteName(k.ds, k.snapshot) && Render(root, k) == f;
        assert k in store[key := data];
      }
    }
    forall f | f in cut ensures exists k :: k in store - {key} && ByteName(k.ds, k.snapshot) && Render(root, k) == f {
      var k :| k in store && ByteName(k.ds, k.snapshot) && Render(root, k) == f;
      assert k in store - {key};
    }
  }

  // ---- dot components ----

  /** validateName lets "." through, and path.Join then drops it: every accepted dataset shares all its keys with
      another accepted dataset. */
  function Alias(ds: DatasetName): DatasetName {
    ds.(path := ds.path + "/.")
  }

  lemma DotAlias(root: string, ds: DatasetName, snapshot: string, index: nat)
    requires ValidNames(ds, snapshot)
    ensures ValidNames(Alias(ds), snapshot) && Alias(ds) != ds && ByteName(Alias(ds), snapshot) && ByteName(ds, snapshot)
    ensures Render(root, ManifestKey(Alias(ds), snapshot)) == Render(root, ManifestKey(ds, snapshot))
    ensures Render(root, ChunkKey(Alias(ds), snapshot, index)) == Render(root, ChunkKey(ds, snapshot, index))
  {
    hide Render, ValidNames, ByteName, Components;
    AliasValid(ds, snapshot);
    AliasComponents(root, ManifestKey(ds, snapshot), ManifestKey(Alias(ds), snapshot));
    AliasComponents(root, ChunkKey(ds, snapshot, index), ChunkKey(Alias(ds), snapshot, index));
    RenderAlike(root, ManifestKey(ds, snapshot), ManifestKey(Alias(ds), snapshot));
    RenderAlike(root, ChunkKey(ds, snapshot, index), ChunkKey(Alias(ds), snapshot, index));
    assert |Alias(ds).path| != |ds.path|;
  }

  lemma AliasValid(ds: DatasetName, snapshot: string)
    requires ValidNames(ds, snapshot)
    ensures ValidNames(Alias(ds), snapshot)
  {
    hide SplitSlash;
    SplitSeparated(ds.path, ".");
    assert Alias(ds).path == ds.path + "/" + ".";
    assert ValidName(".") by { DotValid(); }
    hide ValidName;
    var parts := SplitSlash(Alias(ds).path);
    forall i | 0 <= i < |parts| ensures ValidName(parts[i]) {
      if i < |parts| - 1 {
        assert parts[i] == SplitSlash(ds.path)[i];
      }
    }
  }

  lemma DotValid()
    ensures ValidName(".")
  {
    assert SafeChar('.');
  }

  lemma AliasComponents(root: string, key: Key, other: Key)
    requires other == key.(ds := Alias(key.ds))
    ensures Components(root, other) == Components(root, key)
  {
    hide SplitSlash, Cleaned, PrefixParts, TrimSlashes, ChunkFile;
    SplitSeparated(key.ds.path, ".");
    assert Alias(key.ds).path == key.ds.path + "/" + ".";
    var head := ["sources", key.ds.source, "pools", key.ds.pool, "datasets"] + SplitSlash(key.ds.path);
    var tail := ["@snapshots", key.snapshot] + File(key);
    var r := PrefixParts(TrimSlashes(root));
    assert Parts(key) == head + tail && Parts(other) == (head + ["."]) + tail;
    CleanedAppend(r, head, tail);
    CleanedAppend(r, head + ["."], tail);
    CleanedDot(r, head);
  }

  lemma CleanedDot(stack: seq<string>, parts: seq<string>)
    ensures Cleaned(stack, parts + ["."]) == Cleaned(stack, parts)
  {
    assert (parts + ["."])[..|parts|] == parts;
  }

  /** validateName lets ".." through too, and path.Join takes back the component before it: a detour through any other
      valid component is another name for the same dataset. */
  function Detour(ds: DatasetName, part: string): DatasetName {
    ds.(path := part + "/../" + ds.path)
  }

  lemma DotDotAlias(root: string, ds: DatasetName, part: string, snapshot: string, index: nat)
    requires ValidNames(ds, snapshot) && ValidName(part) && NoDots(part)
    ensures ValidNames(Detour(ds, part), snapshot) && ByteName(Detour(ds, part), snapshot) && ByteName(ds, snapshot)
    ensures Render(root, ManifestKey(Detour(ds, part), snapshot)) == Render(root, ManifestKey(ds, snapshot))
    ensures Render(root, ChunkKey(Detour(ds, part), snapshot, index)) == Render(root, ChunkKey(ds, snapshot, index))
  {
    assert SlashFree(part) && part != "";
    hide Render, ByteName, Components, ValidName, ValidDataset;
    assert ValidDataset(Detour(ds, part).path) by { DetourValid(ds, part); }
    DetourComponents(root, ManifestKey(ds, snapshot), ManifestKey(Detour(ds, part), snapshot), part);
    DetourComponents(root, ChunkKey(ds, snapshot, index), ChunkKey(Detour(ds, part), snapshot, index), part);
    RenderAlike(root, ManifestKey(ds, snapshot), ManifestKey(Detour(ds, part), snapshot));
    RenderAlike(root, ChunkKey(ds, snapshot, index), ChunkKey(Detour(ds, part), snapshot, index));
  }

  lemma DetourParts(ds: DatasetName, part: string)
    requires SlashFree(part)
    ensures SplitSlash(Detour(ds, part).path) == [part, ".."] + SplitSlash(ds.path)
  {
    hide SplitSlash;
    SplitSlashFree(ds.path);
    JoinSplit(ds.path);
    var first, rest := [part, ".."], SplitSlash(ds.path);
    assert JoinSlash(first) == part + "/.." by { assert first[..1] == [part]; }
    hide JoinSlash;
    JoinAppend(first, rest);
    assert Detour(ds, part).path == JoinSlash(first + rest);
    SplitJoin(first + rest);
  }

  lemma DetourValid(ds: DatasetName, part: string)
    requires ValidName(part) && ValidDataset(ds.path)
    ensures ValidDataset(Detour(ds, part).path)
  {
    assert SlashFree(part) && ValidName("..") by { assert SafeChar('.'); }
    DetourParts(ds, part);
    DetourEnds(ds, part);
    hide ValidName, SplitSlash;
    var parts, rest := SplitSlash(Detour(ds, part).path), SplitSlash(ds.path);
    forall i | 0 <= i < |parts| ensures ValidName(parts[i]) {
      if i >= 2 {
        assert parts[i] == rest[i - 2];
      }
    }
  }

  lemma DetourEnds(ds: DatasetName, part: string)
    requires ValidName(part) && ValidDataset(ds.path)
    ensures var s := Detour(ds, part).path; s != "" && s[0] != '/' && s[|s| - 1] != '/'
  {
    hide SplitSlash;
    var s := Detour(ds, part).path;
    assert s[0] == part[0] && s[|s| - 1] == ds.path[|ds.path| - 1];
  }

  lemma DetourComponents(root: string, key: Key, other: Key, part: string)
    requires SlashFree(part) && part != "" && NoDots(part) && other == key.(ds := Detour(key.ds, part))
    ensures Components(root, other) == Components(root, key)
  {
    DetourParts(key.ds, part);
    hide SplitSlash, Cleaned, PrefixParts, TrimSlashes, ChunkFile;
    var head, split := ["sources", key.ds.source, "pools", key.ds.pool, "datasets"], SplitSlash(key.ds.path);
    var named, file := ["@snapshots", key.snapshot], File(key);
    var rest := split + named + file;
    var r := PrefixParts(TrimSlashes(root));
    Regroup(head, [], split, named, file);
    Regroup(head, [part, ".."], split, named, file);
    assert [] + split == split && head + [] == head;
    assert Parts(key) == head + rest && Parts(other) == (head + [part, ".."]) + rest;
    CleanedAppend(r, head, rest);
    CleanedAppend(r, head + [part, ".."], rest);
    CleanedAppend(r, head, [part, ".."]);
    ThereAndBack(Cleaned(r, head), part);
  }

  lemma Regroup<T>(a: seq<T>, b: seq<T>, c: seq<T>, d: seq<T>, e: seq<T>)
    ensures a + (b + c) + d + e == (a + b) + (c + d + e)
  {
  }

  lemma ThereAndBack(stack: seq<string>, part: string)
    requires part != "" && NoDots(part)
    ensures Cleaned(stack, [part, ".."]) == stack
  {
    var parts := [part, ".."];
    assert parts[..1] == [part] && [part][..0] == [];
    assert Cleaned(stack, [part]) == stack + [part];
    assert (stack + [part])[..|stack|] == stack;
  }
}
