/** The DRR_BEGIN record at the head of a send stream (internal/zfsstream/parse.go), in either byte order. */
module BeginRecords {
  import opened Base
  import opened GuidText

  const RECORD_SIZE := 312
  const NAME_SIZE := 256
  const DRR_BEGIN := 0
  const DMU_MAGIC := 0x2_f5ba_cbac
  const RAW := 0x100_0000
  const COMPRESSED := 0x40_0000

  datatype Order = Little | Big

  datatype Begin = Begin(pool: string, dataset: string, snapshot: string, toName: string,
                         fromGuid: string, toGuid: string, raw: bool, compressed: bool, features: nat)

  // ---- unsigned integers of k bytes ----

  function Power(k: nat): nat {
    if k == 0 then 1 else 256 * Power(k - 1)
  }

  function LittleEndian(n: nat, k: nat): Bytes {
    if k == 0 then [] else [n % 256] + LittleEndian(n / 256, k - 1)
  }

  function FromLittle(b: Bytes): nat {
    if b == [] then 0 else b[0] + 256 * FromLittle(b[1..])
  }

  function Reverse(b: Bytes): Bytes {
    seq(|b|, i requires 0 <= i < |b| => b[|b| - 1 - i])
  }

  function Write(o: Order, n: nat, k: nat): Bytes {
    if o == Little then LittleEndian(n, k) else Reverse(LittleEndian(n, k))
  }

  function Read(o: Order, b: Bytes): nat {
    if o == Little then FromLittle(b) else FromLittle(Reverse(b))
  }

  lemma {:induction false} LittleRoundTrip(n: nat, k: nat)
    requires n < Power(k)
    ensures |LittleEndian(n, k)| == k && FromLittle(LittleEndian(n, k)) == n
  {
    if k > 0 {
      LittleRoundTrip(n / 256, k - 1);
      assert LittleEndian(n, k)[1..] == LittleEndian(n / 256, k - 1);
    }
  }

  lemma DivMod(low: byte, high: nat)
    ensures (low + 256 * high) % 256 == low && (low + 256 * high) / 256 == high
  {
  }

  lemma {:induction false} LittleUnique(b: Bytes)
    ensures FromLittle(b) < Power(|b|) && LittleEndian(FromLittle(b), |b|) == b
  {
    if b != [] {
      LittleUnique(b[1..]);
      DivMod(b[0], FromLittle(b[1..]));
      assert b == [b[0]] + b[1..];
    }
  }

  /** In either order, reading what was written gives the number back. */
  lemma WriteRead(o: Order, n: nat, k: nat)
    requires n < Power(k)
    ensures |Write(o, n, k)| == k && Read(o, Write(o, n, k)) == n
  {
    LittleRoundTrip(n, k);
    assert Reverse(Reverse(LittleEndian(n, k))) == LittleEndian(n, k);
  }

  lemma Powers()
    ensures Power(4) == 0x1_0000_0000 && Power(8) == LIMIT
  {
    assert Power(2) == 0x1_0000;
    assert Power(6) == 256 * (256 * Power(4));
  }

  // ---- the byte order ----

  function ByteOrder(header: Bytes): Option<Order>
    requires |header| >= RECORD_SIZE
  {
    if Read(Little, header[8..16]) == DMU_MAGIC then Some(Little)
    else if Read(Big, header[8..16]) == DMU_MAGIC then Some(Big)
    else None
  }

  /** No eight bytes spell the magic in both orders, so the order tested first does not matter. */
  lemma MagicOneWay(b: Bytes)
    requires |b| == 8
    ensures !(Read(Little, b) == DMU_MAGIC && Read(Big, b) == DMU_MAGIC)
  {
    if Read(Little, b) == DMU_MAGIC && Read(Big, b) == DMU_MAGIC {
      LittleUnique(b);
      LittleUnique(Reverse(b));
      MagicBytes();
    }
  }

  /** A number that fits in fewer bytes ends in zeros when written in little-endian order. */
  lemma {:induction false} LittleTop(n: nat, k: nat, few: nat)
    requires few < k && n < Power(few)
    ensures |LittleEndian(n, k)| == k && LittleEndian(n, k)[k - 1] == 0
    decreases k
  {
    if few == 0 {
      LittleZero(k);
    } else {
      LittleTop(n / 256, k - 1, few - 1);
    }
  }

  lemma {:induction false} LittleZero(k: nat)
    ensures |LittleEndian(0, k)| == k && forall i :: 0 <= i < k ==> LittleEndian(0, k)[i] == 0
  {
    if k > 0 {
      LittleZero(k - 1);
    }
  }

  lemma MagicBytes()
    ensures |LittleEndian(DMU_MAGIC, 8)| == 8
    ensures LittleEndian(DMU_MAGIC, 8)[0] == 0xac && LittleEndian(DMU_MAGIC, 8)[7] == 0
  {
    assert Power(5) == 0x100_0000_0000 by { Powers(); }
    LittleTop(DMU_MAGIC, 8, 5);
    assert LittleEndian(DMU_MAGIC, 8)[0] == DMU_MAGIC % 256;
  }

  // ---- names ----

  /** cString: up to the first NUL, or all of it. */
  function CString(b: Bytes): string {
    if b == [] || b[0] == 0 then "" else [b[0] as char] + CString(b[1..])
  }

  function LastIndex(s: string, c: char): int {
    if s == "" then -1 else if s[|s| - 1] == c then |s| - 1 else LastIndex(s[..|s| - 1], c)
  }

  function Index(s: string, c: char): int {
    if s == "" then -1
    else if s[0] == c then 0
    else var i := Index(s[1..], c); if i < 0 then -1 else i + 1
  }

  lemma {:induction false} LastIndexIs(s: string, c: char)
    ensures var i := LastIndex(s, c);
      -1 <= i < |s| && (i >= 0 ==> s[i] == c) && (forall k :: i < k < |s| ==> s[k] != c)
  {
    if s != "" && s[|s| - 1] != c {
      LastIndexIs(s[..|s| - 1], c);
    }
  }

  lemma {:induction false} IndexIs(s: string, c: char)
    ensures var i := Index(s, c);
      -1 <= i < |s| && (i >= 0 ==> s[i] == c) && (forall k :: 0 <= k < (if i < 0 then |s| else i) ==> s[k] != c)
  {
    if s != "" && s[0] != c {
      IndexIs(s[1..], c);
      assert forall k :: 1 <= k < |s| ==> s[k] == s[1..][k - 1];
    }
  }

  datatype Name = Name(pool: string, dataset: string, snapshot: string)

  function Join(n: Name): string {
    n.pool + "/" + n.dataset + "@" + n.snapshot
  }

  function SplitToName(s: string): Option<Name> {
    LastIndexIs(s, '@');
    var at := LastIndex(s, '@');
    if at <= 0 || at == |s| - 1 then None
    else
      var fs := s[..at];
      IndexIs(fs, '/');
      var slash := Index(fs, '/');
      if slash <= 0 || slash == |fs| - 1 then None
      else Some(Name(fs[..slash], fs[slash + 1..], s[at + 1..]))
  }

  predicate ValidName(n: Name) {
    n.pool != "" && n.dataset != "" && n.snapshot != "" && '/' !in n.pool && '@' !in n.snapshot
  }

  /** The accepted names are exactly pool + "/" + dataset + "@" + snapshot with the three parts non-empty, no slash
      in the pool and no at sign in the snapshot, and the parts come back as they were. */
  lemma SplitIsJoin(s: string, n: Name)
    ensures SplitToName(s) == Some(n) <==> ValidName(n) && s == Join(n)
  {
    hide SplitToName, ValidName, Join;
    if SplitToName(s) == Some(n) {
      SplitThenJoin(s, n);
    }
    if ValidName(n) && s == Join(n) {
      JoinThenSplit(s, n);
    }
  }

  lemma SplitThenJoin(s: string, n: Name)
    requires SplitToName(s) == Some(n)
    ensures ValidName(n) && s == Join(n)
  {
    LastIndexIs(s, '@');
    var at := LastIndex(s, '@');
    IndexIs(s[..at], '/');
    assert s[..at] == n.pool + "/" + n.dataset;
    assert s == s[..at] + "@" + n.snapshot;
    assert forall k :: 0 <= k < |n.snapshot| ==> n.snapshot[k] == s[at + 1 + k];
  }

  lemma JoinThenSplit(s: string, n: Name)
    requires ValidName(n) && s == Join(n)
    ensures SplitToName(s) == Some(n)
  {
    var fs := n.pool + "/" + n.dataset;
    assert s == fs + "@" + n.snapshot;
    LastAt(s, fs, n.snapshot);
    assert s[..|fs|] == fs && s[|fs| + 1..] == n.snapshot;
    FirstSlash(fs, n.pool, n.dataset);
    assert fs[..|n.pool|] == n.pool && fs[|n.pool| + 1..] == n.dataset;
  }

  lemma LastAt(s: string, before: string, after: string)
    requires s == before + "@" + after && '@' !in after
    ensures LastIndex(s, '@') == |before|
  {
    LastIndexIs(s, '@');
    assert s[|before|] == '@';
  }

  lemma FirstSlash(s: string, before: string, after: string)
    requires s == before + "/" + after && '/' !in before
    ensures Index(s, '/') == |before|
  {
    IndexIs(s, '/');
    assert s[|before|] == '/';
  }

  // ---- the record ----

  function ParseBegin(header: Bytes): Option<Begin> {
    if |header| < RECORD_SIZE then None
    else match ByteOrder(header)
      case None => None
      case Some(o) =>
        if Read(o, header[0..4]) != DRR_BEGIN then None
        else
          var features := Read(o, header[16..24]) / 4;
          var toName := CString(header[56..56 + NAME_SIZE]);
          match SplitToName(toName)
          case None => None
          case Some(n) =>
            Some(Begin(n.pool, n.dataset, n.snapshot, toName,
                       FormatGuid(Read(o, header[48..56])), FormatGuid(Read(o, header[40..48])),
                       features / RAW % 2 == 1, features / COMPRESSED % 2 == 1, features))
  }

  // ---- what a record says, apart from how it is parsed ----

  /** The k-th bit of a number, counted from the lowest. */
  predicate Bit(n: nat, k: nat) {
    if k == 0 then n % 2 == 1 else Bit(n / 2, k - 1)
  }

  function PowerOfTwo(k: nat): nat {
    if k == 0 then 1 else 2 * PowerOfTwo(k - 1)
  }

  lemma {:induction false} BitIs(n: nat, k: nat)
    ensures PowerOfTwo(k) > 0 && (Bit(n, k) <==> n / PowerOfTwo(k) % 2 == 1)
    decreases k
  {
    if k > 0 {
      BitIs(n / 2, k - 1);
      DivTwice(n, PowerOfTwo(k - 1));
    }
  }

  lemma DivTwice(n: nat, p: nat)
    requires p > 0
    ensures n / (2 * p) == n / 2 / p
  {
    var q, r := n / 2 / p, n / 2 % p;
    assert n == 2 * (q * p + r) + n % 2;
    assert n == q * (2 * p) + (2 * r + n % 2);
    Quotients(n, 2 * p, q, 2 * r + n % 2);
  }

  lemma FeatureBits(features: nat)
    ensures features / RAW % 2 == 1 <==> Bit(features, 24)
    ensures features / COMPRESSED % 2 == 1 <==> Bit(features, 22)
  {
    assert PowerOfTwo(8) == 0x100;
    assert PowerOfTwo(16) == 0x1_0000 by { assert PowerOfTwo(12) == 0x1000; }
    assert PowerOfTwo(20) == 0x10_0000;
    assert PowerOfTwo(22) == 0x40_0000;
    BitIs(features, 24);
    BitIs(features, 22);
  }

  /** A begin record in byte order o whose toname is that of n. */
  ghost predicate IsRecord(h: Bytes, o: Order, n: Name) {
    && |h| >= 312 && Read(o, h[0..4]) == 0 && Read(o, h[8..16]) == 0x2_f5ba_cbac
    && ValidName(n) && CString(h[56..312]) == n.pool + "/" + n.dataset + "@" + n.snapshot
  }

  /** The names, GUIDs and features such a record carries. */
  ghost predicate Carries(b: Begin, h: Bytes, o: Order, n: Name)
    requires |h| >= 312
  {
    && b.pool == n.pool && b.dataset == n.dataset && b.snapshot == n.snapshot
    && b.toName == n.pool + "/" + n.dataset + "@" + n.snapshot
    && IsGuidText(b.fromGuid, Read(o, h[48..56])) && IsGuidText(b.toGuid, Read(o, h[40..48]))
    && b.features == Read(o, h[16..24]) / 4 && (b.raw <==> Bit(b.features, 24)) && (b.compressed <==> Bit(b.features, 22))
  }

  lemma ParsedRecord(h: Bytes, b: Begin)
    requires ParseBegin(h) == Some(b)
    ensures exists o, n :: IsRecord(h, o, n) && Carries(b, h, o, n)
  {
    hide Read, CString, SplitToName, FormatGuid, IsGuidText, Bit, ValidName;
    var o := ByteOrder(h).value;
    var n := SplitToName(CString(h[56..56 + NAME_SIZE])).value;
    SplitIsJoin(b.toName, n);
    FormatText(b.fromGuid, Read(o, h[48..56]));
    FormatText(b.toGuid, Read(o, h[40..48]));
    FeatureBits(b.features);
    assert IsRecord(h, o, n) && Carries(b, h, o, n);
  }

  lemma RecordParsed(h: Bytes, b: Begin, o: Order, n: Name)
    requires IsRecord(h, o, n) && Carries(b, h, o, n)
    ensures ParseBegin(h) == Some(b)
  {
    hide Read, CString, SplitToName, FormatGuid, IsGuidText, Bit, ValidName;
    MagicOneWay(h[8..16]);
    SplitIsJoin(b.toName, n);
    FormatText(b.fromGuid, Read(o, h[48..56]));
    FormatText(b.toGuid, Read(o, h[40..48]));
    FeatureBits(b.features);
  }

  lemma AlwaysParsed(h: Bytes, o: Order, n: Name)
    requires IsRecord(h, o, n)
    ensures ParseBegin(h).Some?
  {
    hide Read, CString, SplitToName, FormatGuid, ValidName;
    MagicOneWay(h[8..16]);
    SplitIsJoin(CString(h[56..312]), n);
  }

  /** On any bytes, ParseBegin gives back exactly what the record carries, and nothing when they are not a record. */
  lemma ParseIsRecord(h: Bytes, b: Begin)
    ensures ParseBegin(h) == Some(b) <==> exists o, n :: IsRecord(h, o, n) && Carries(b, h, o, n)
  {
    hide ParseBegin, Carries, ValidName, Read, CString;
    if ParseBegin(h) == Some(b) {
      ParsedRecord(h, b);
    }
    if o, n :| IsRecord(h, o, n) && Carries(b, h, o, n) {
      RecordParsed(h, b, o, n);
    }
  }

  /** What a sender puts into the record; the other fields may hold anything. */
  datatype Fields = Fields(name: Name, fromGuid: nat, toGuid: nat, features: nat, headerType: nat,
                           payload: Bytes, middle: Bytes, rest: Bytes)

  function NameBytes(s: string): Bytes
    requires forall i :: 0 <= i < |s| ==> 0 < s[i] as int < 256
  {
    seq(|s|, i requires 0 <= i < |s| => s[i] as int)
  }

  function ZeroBytes(n: nat): Bytes {
    seq(n, i => 0)
  }

  predicate Writable(f: Fields) {
    && ValidName(f.name) && |Join(f.name)| <= NAME_SIZE
    && (forall i :: 0 <= i < |Join(f.name)| ==> 0 < Join(f.name)[i] as int < 256)
    && f.fromGuid < LIMIT && f.toGuid < LIMIT && f.features < LIMIT / 4 && f.headerType < 4
    && |f.payload| == 4 && |f.middle| == 16
  }

  function WriteBegin(o: Order, f: Fields): Bytes
    requires Writable(f)
  {
    var name := NameBytes(Join(f.name));
    Write(o, DRR_BEGIN, 4) + f.payload + Write(o, DMU_MAGIC, 8) + Write(o, 4 * f.features + f.headerType, 8)
    + f.middle + Write(o, f.toGuid, 8) + Write(o, f.fromGuid, 8) + (name + ZeroBytes(NAME_SIZE - |name|)) + f.rest
  }

  lemma {:induction false} CStringRoundTrip(s: string, pad: nat)
    requires forall i :: 0 <= i < |s| ==> 0 < s[i] as int < 256
    ensures CString(NameBytes(s) + ZeroBytes(pad)) == s
  {
    var b := NameBytes(s) + ZeroBytes(pad);
    if s != "" {
      CStringRoundTrip(s[1..], pad);
      assert b[1..] == NameBytes(s[1..]) + ZeroBytes(pad);
      assert s == [s[0]] + s[1..];
    }
  }

  /** Where each field lies. */
  lemma FieldsAt(o: Order, f: Fields)
    requires Writable(f)
    ensures var h := WriteBegin(o, f); var name := NameBytes(Join(f.name));
      && |h| >= 312 && h[0..4] == Write(o, 0, 4) && h[8..16] == Write(o, 0x2_f5ba_cbac, 8)
      && h[16..24] == Write(o, 4 * f.features + f.headerType, 8) && h[40..48] == Write(o, f.toGuid, 8)
      && h[48..56] == Write(o, f.fromGuid, 8) && h[56..312] == name + ZeroBytes(NAME_SIZE - |name|)
  {
    hide Write, NameBytes, ZeroBytes, Join;
    Powers();
    var name := NameBytes(Join(f.name));
    Sizes(o, f);
    var a, b, c := Write(o, DRR_BEGIN, 4) + f.payload, Write(o, DMU_MAGIC, 8), Write(o, 4 * f.features + f.headerType, 8);
    var d, e, g := f.middle, Write(o, f.toGuid, 8), Write(o, f.fromGuid, 8);
    var n := name + ZeroBytes(NAME_SIZE - |name|);
    var h := WriteBegin(o, f);
    assert h == a + b + c + d + e + g + n + f.rest;
    assert |a| == 8 && |b| == 8 && |c| == 8 && |d| == 16 && |e| == 8 && |g| == 8 && |n| == 256;
  }

  lemma Sizes(o: Order, f: Fields)
    requires Writable(f)
    ensures |Write(o, DRR_BEGIN, 4)| == 4 && |Write(o, DMU_MAGIC, 8)| == 8
    ensures |Write(o, 4 * f.features + f.headerType, 8)| == 8
    ensures |Write(o, f.toGuid, 8)| == 8 && |Write(o, f.fromGuid, 8)| == 8
    ensures |NameBytes(Join(f.name))| == |Join(f.name)| && |ZeroBytes(NAME_SIZE - |Join(f.name)|)| == NAME_SIZE - |Join(f.name)|
  {
    Powers();
    hide Write, Read, Power;
    WriteRead(o, DRR_BEGIN, 4);
    WriteRead(o, DMU_MAGIC, 8);
    WriteRead(o, 4 * f.features + f.headerType, 8);
    WriteRead(o, f.toGuid, 8);
    WriteRead(o, f.fromGuid, 8);
  }

  lemma MagicFits()
    ensures DMU_MAGIC < Power(8)
  {
    Powers();
  }

  /** Parsing the record that was written in either byte order gives back its names, features and GUIDs; the GUIDs as
      text, so that the fromguid is "0" exactly in a full stream. */
  lemma BeginRoundTrip(o: Order, f: Fields)
    requires Writable(f)
    ensures ParseBegin(WriteBegin(o, f)).Some?
    ensures var b := ParseBegin(WriteBegin(o, f)).value;
      && b.pool == f.name.pool && b.dataset == f.name.dataset && b.snapshot == f.name.snapshot
      && b.toName == f.name.pool + "/" + f.name.dataset + "@" + f.name.snapshot
      && IsGuidText(b.fromGuid, f.fromGuid) && (b.fromGuid == "0" <==> f.fromGuid == 0) && IsGuidText(b.toGuid, f.toGuid)
      && b.features == f.features && (b.raw <==> Bit(f.features, 24)) && (b.compressed <==> Bit(f.features, 22))
  {
    Powers();
    hide Write, Read, Power, WriteBegin, ParseBegin, CString, FormatGuid, NameBytes, ZeroBytes, IsGuidText, Bit;
    var s, h := Join(f.name), WriteBegin(o, f);
    FieldsAt(o, f);
    MagicFits();
    WriteRead(o, 0, 4);
    WriteRead(o, DMU_MAGIC, 8);
    WriteRead(o, 4 * f.features + f.headerType, 8);
    WriteRead(o, f.toGuid, 8);
    WriteRead(o, f.fromGuid, 8);
    assert (4 * f.features + f.headerType) / 4 == f.features;
    CStringRoundTrip(s, NAME_SIZE - |s|);
    assert |NameBytes(s)| == |s| by { Sizes(o, f); }
    var b := Begin(f.name.pool, f.name.dataset, f.name.snapshot, s, FormatGuid(f.fromGuid), FormatGuid(f.toGuid),
                   Bit(f.features, 24), Bit(f.features, 22), f.features);
    FormatText(b.fromGuid, f.fromGuid);
    FormatText(b.toGuid, f.toGuid);
    RecordParsed(h, b, o, f.name);
    ZeroText(b.fromGuid, f.fromGuid);
  }

  lemma ZeroText(s: string, guid: nat)
    requires IsGuidText(s, guid)
    ensures s != "" && (s == "0" <==> guid == 0)
  {
  }
}
