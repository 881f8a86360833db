/** Objects encrypted at rest (internal/storage/encrypted.go): the envelope around a ciphertext, the key cache, and
    a store that shows plaintext over a base store that holds envelopes. */
module Envelopes {
  import opened Base
  import opened Manifests
  import opened Streams
  import opened Storage
  import opened Numerals
  import Keys

  /** "ZS3ENC1\n" */
  const MAGIC: Bytes := [0x5A, 0x53, 0x33, 0x45, 0x4E, 0x43, 0x31, 0x0A]

  const WORD := 0x1_0000_0000

  /** PutUint32 of a length, which keeps its low 32 bits. */
  function BigEndian32(n: nat): Bytes {
    [n / 0x100_0000 % 256, n / 0x1_0000 % 256, n / 0x100 % 256, n % 256]
  }

  function FromBigEndian32(b: Bytes): nat
    requires |b| == 4
  {
    var a: int, c: int, d: int := b[0], b[1], b[2];
    a * 0x100_0000 + c * 0x1_0000 + d * 0x100 + b[3]
  }

  lemma WordRoundTrip(n: nat)
    ensures FromBigEndian32(BigEndian32(n)) == n % WORD
  {
    var a := n / 0x100;
    var b := n / 0x1_0000;
    var c := n / 0x100_0000;
    assert n == a * 256 + n % 256 && a == b * 256 + a % 256 && b == c * 256 + b % 256;
    assert c == c / 256 * 256 + c % 256;
    assert n == (c / 256) * WORD + FromBigEndian32(BigEndian32(n));
    Remainder(n, c / 256, FromBigEndian32(BigEndian32(n)));
  }

  lemma Remainder(n: nat, q: nat, r: nat)
    requires n == q * WORD + r && r < WORD
    ensures n % WORD == r
  {
  }

  lemma WordUnique(b: Bytes)
    requires |b| == 4
    ensures BigEndian32(FromBigEndian32(b)) == b
  {
    var n := FromBigEndian32(b);
    var a: int, c: int := b[0], b[1];
    assert n / 0x100 == a * 0x1_0000 + c * 0x100 + b[2];
    assert n / 0x1_0000 == a * 0x100 + b[1];
    assert n / 0x100_0000 == b[0];
  }

  function Encode(header: Bytes, ciphertext: Bytes): Bytes {
    MAGIC + BigEndian32(|header|) + header + ciphertext
  }

  /** decodeEncryptedObject: it looks at the length, not at the magic, which decryptObject checks first. */
  function Decode(data: Bytes): Option<(Bytes, Bytes)> {
    var offset := |MAGIC| + 4;
    if |data| < offset then None
    else
      var n := FromBigEndian32(data[|MAGIC|..offset]);
      if n <= 0 || |data| < offset + n then None
      else Some((data[offset..offset + n], data[offset + n..]))
  }

  lemma EncodedLength(header: Bytes, ciphertext: Bytes)
    ensures var e := Encode(header, ciphertext);
      |e| == 12 + |header| + |ciphertext| && FromBigEndian32(e[8..12]) == |header| % WORD && e[12..] == header + ciphertext
  {
    var e := Encode(header, ciphertext);
    assert e[8..12] == BigEndian32(|header|);
    WordRoundTrip(|header|);
  }

  /** Decoding undoes encoding exactly for headers of 1 to 2^32 - 1 bytes. */
  lemma EncodeThenDecode(header: Bytes, ciphertext: Bytes)
    ensures Decode(Encode(header, ciphertext)) == Some((header, ciphertext)) <==> 1 <= |header| < WORD
  {
    hide Encode, FromBigEndian32;
    EncodedLength(header, ciphertext);
    var e := Encode(header, ciphertext);
    if 1 <= |header| < WORD {
      assert e[12..12 + |header|] == e[12..][..|header|] == header;
      assert e[12 + |header|..] == e[12..][|header|..] == ciphertext;
    }
  }

  /** Encoding undoes decoding exactly for data that starts with the magic. */
  lemma DecodeThenEncode(data: Bytes)
    requires Decode(data).Some?
    ensures var (header, ciphertext) := Decode(data).value;
      1 <= |header| < WORD && (Encode(header, ciphertext) == data <==> MAGIC <= data)
  {
    var (header, ciphertext) := Decode(data).value;
    WordUnique(data[8..12]);
    var n := |header|;
    assert data == data[..8] + data[8..12] + data[12..12 + n] + data[12 + n..];
    if Encode(header, ciphertext) == data {
      assert data[..8] == MAGIC;
    }
  }

  // ---- keys ----

  datatype Envelope = Envelope(version: int, algorithm: string, kdf: string, salt: string,
                               time: nat, memoryKiB: nat, parallelism: nat, nonce: string)

  /** Argon2id, XChaCha20-Poly1305, JSON and base64: foreign code, known by its laws. */
  datatype Crypto = Crypto(derive: (string, string, nat, nat, nat) -> Bytes,
                           seal: (Bytes, Bytes, Bytes, Bytes) -> Bytes,
                           open: (Bytes, Bytes, Bytes, Bytes) -> Option<Bytes>,
                           marshal: Envelope -> Bytes, unmarshal: Bytes -> Option<Envelope>,
                           toBase64: Bytes -> string, fromBase64: string -> Option<Bytes>)

  const KDF_VERSION := 1

  /** The header PutBytes writes. */
  function Header(c: Crypto, nonce: Bytes): Envelope {
    Envelope(KDF_VERSION, STORAGE_ENCRYPTION.algorithm, STORAGE_ENCRYPTION.kdf, STORAGE_ENCRYPTION.salt,
             STORAGE_ENCRYPTION.time, STORAGE_ENCRYPTION.memoryKiB, STORAGE_ENCRYPTION.parallelism, c.toBase64(nonce))
  }

  const NONCE_SIZE := 24

  ghost predicate Sound(c: Crypto) {
    && (forall key, nonce, data, ad :: c.open(key, nonce, c.seal(key, nonce, data, ad), ad) == Some(data))
    && (forall e :: c.unmarshal(c.marshal(e)) == Some(e))
    && (forall b :: c.fromBase64(c.toBase64(b)) == Some(b))
    && (forall nonce: Bytes :: |nonce| == NONCE_SIZE ==> 1 <= |c.marshal(Header(c, nonce))| < WORD)
  }

  /** aeadFor's checks. */
  predicate Supported(e: Envelope) {
    && e.version == KDF_VERSION && e.algorithm == STORAGE_ENCRYPTION.algorithm && e.kdf == STORAGE_ENCRYPTION.kdf
    && e.time != 0 && e.memoryKiB != 0 && e.parallelism != 0
  }

  function CacheKey(salt: string, time: nat, memoryKiB: nat, parallelism: nat): string {
    salt + "/" + Numeral(time, 10) + "/" + Numeral(memoryKiB, 10) + "/" + Numeral(parallelism, 10)
  }

  lemma DecimalHasNoSlash(n: nat)
    ensures '/' !in Numeral(n, 10)
  {
    NumeralRoundTrip(n, 10);
  }

  /** The last slash splits a string in one way. */
  lemma LastSlash(a: string, x: string, b: string, y: string)
    requires a + "/" + x == b + "/" + y && '/' !in x && '/' !in y
    ensures a == b && x == y
  {
    var s := a + "/" + x;
    var t := b + "/" + y;
    assert s[|a|] == '/' && t[|b|] == '/';
    assert |a| == |b|;
    assert s[..|a|] == a && t[..|a|] == b && s[|a| + 1..] == x && t[|a| + 1..] == y;
  }

  /** Different parameters never share a cache key, even when a salt contains slashes. */
  lemma CacheKeyInjective(s1: string, t1: nat, m1: nat, p1: nat, s2: string, t2: nat, m2: nat, p2: nat)
    requires CacheKey(s1, t1, m1, p1) == CacheKey(s2, t2, m2, p2)
    ensures s1 == s2 && t1 == t2 && m1 == m2 && p1 == p2
  {
    hide Numeral;
    DecimalHasNoSlash(t1); DecimalHasNoSlash(t2);
    DecimalHasNoSlash(m1); DecimalHasNoSlash(m2);
    DecimalHasNoSlash(p1); DecimalHasNoSlash(p2);
    var a1, a2 := s1 + "/" + Numeral(t1, 10), s2 + "/" + Numeral(t2, 10);
    var b1, b2 := a1 + "/" + Numeral(m1, 10), a2 + "/" + Numeral(m2, 10);
    LastSlash(b1, Numeral(p1, 10), b2, Numeral(p2, 10));
    LastSlash(a1, Numeral(m1, 10), a2, Numeral(m2, 10));
    LastSlash(s1, Numeral(t1, 10), s2, Numeral(t2, 10));
    NumeralInjective(t1, t2, 10);
    NumeralInjective(m1, m2, 10);
    NumeralInjective(p1, p2, 10);
  }

  function FreshKey(c: Crypto, passphrase: string, e: Envelope): Bytes {
    c.derive(passphrase, e.salt, e.time, e.memoryKiB, e.parallelism)
  }

  // ---- what an object says ----

  /** isPlaintextMetadataKey on structured keys; module Keys relates it to the rendered string. */
  predicate Plaintext(key: Key) {
    key.ManifestKey?
  }

  /** decryptObject, deriving the key afresh each time. */
  function Opened(c: Crypto, passphrase: string, data: Bytes): Option<Bytes> {
    if !(MAGIC <= data) then None
    else match Decode(data)
      case None => None
      case Some((header, ciphertext)) => OpenedBody(c, passphrase, header, ciphertext)
  }

  function OpenedBody(c: Crypto, passphrase: string, header: Bytes, ciphertext: Bytes): Option<Bytes> {
    match c.unmarshal(header)
    case None => None
    case Some(e) =>
      match c.fromBase64(e.nonce)
      case None => None
      case Some(nonce) =>
        if Supported(e) then c.open(FreshKey(c, passphrase, e), nonce, ciphertext, header) else None
  }

  function Sealed(c: Crypto, passphrase: string, nonce: Bytes, data: Bytes): Bytes {
    var e := Header(c, nonce);
    var header := c.marshal(e);
    Encode(header, c.seal(FreshKey(c, passphrase, e), nonce, data, header))
  }

  /** Opening undoes sealing. */
  lemma SealedOpens(c: Crypto, passphrase: string, nonce: Bytes, data: Bytes)
    requires Sound(c) && |nonce| == NONCE_SIZE
    ensures Opened(c, passphrase, Sealed(c, passphrase, nonce, data)) == Some(data)
  {
    hide Encode, Decode, FreshKey;
    var e := Header(c, nonce);
    var header := c.marshal(e);
    var ciphertext := c.seal(FreshKey(c, passphrase, e), nonce, data, header);
    EncodeThenDecode(header, ciphertext);
    assert MAGIC <= Encode(header, ciphertext) by { StartsWithMagic(header, ciphertext); }
  }

  lemma StartsWithMagic(header: Bytes, ciphertext: Bytes)
    ensures MAGIC <= Encode(header, ciphertext)
  {
  }

  function Shown(c: Crypto, passphrase: string, key: Key, data: Bytes): Option<Bytes> {
    if Plaintext(key) then Some(data) else Opened(c, passphrase, data)
  }

  /** The plaintext view of a base store. */
  function Shows(c: Crypto, passphrase: string, base: Objects): Objects {
    map k | k in base && Shown(c, passphrase, k, base[k]).Some? :: Shown(c, passphrase, k, base[k]).value
  }

  lemma ShowsPut(c: Crypto, passphrase: string, base: Objects, key: Key, data: Bytes, body: Bytes)
    requires Shown(c, passphrase, key, body) == Some(data)
    ensures Shows(c, passphrase, base[key := body]) == Shows(c, passphrase, base)[key := data]
  {
    hide Shown;
  }

  lemma ShowsDelete(c: Crypto, passphrase: string, base: Objects, key: Key)
    ensures Shows(c, passphrase, base - {key}) == Shows(c, passphrase, base) - {key}
  {
    hide Shown;
  }

  ghost predicate CacheTrue(c: Crypto, passphrase: string, cache: map<string, Bytes>) {
    forall salt, time, memory, parallelism :: CacheKey(salt, time, memory, parallelism) in cache ==>
      cache[CacheKey(salt, time, memory, parallelism)] == c.derive(passphrase, salt, time, memory, parallelism)
  }

  lemma CacheGrows(c: Crypto, passphrase: string, cache: map<string, Bytes>, e: Envelope)
    requires CacheTrue(c, passphrase, cache)
    ensures CacheTrue(c, passphrase,
              cache[CacheKey(e.salt, e.time, e.memoryKiB, e.parallelism) := FreshKey(c, passphrase, e)])
  {
    hide CacheKey;
    var key := CacheKey(e.salt, e.time, e.memoryKiB, e.parallelism);
    var grown := cache[key := FreshKey(c, passphrase, e)];
    forall salt, time, memory, parallelism | CacheKey(salt, time, memory, parallelism) in grown
      ensures grown[CacheKey(salt, time, memory, parallelism)] == c.derive(passphrase, salt, time, memory, parallelism)
    {
      if CacheKey(salt, time, memory, parallelism) == key {
        CacheKeyInjective(salt, time, memory, parallelism, e.salt, e.time, e.memoryKiB, e.parallelism);
      }
    }
  }

  // ---- what is stored ----

  /** The envelope every object is sealed under. */
  ghost predicate IsStandard(e: Envelope) {
    && e.version == 1 && e.algorithm == "XChaCha20-Poly1305" && e.kdf == "argon2id"
    && e.salt == "zfs-s3nd/storage-encryption/v1" && e.time == 3 && e.memoryKiB == 65536 && e.parallelism == 4
  }

  /** A header that can be opened: this version, algorithm and key derivation, with any parameters but zero. */
  ghost predicate IsSupported(e: Envelope) {
    && e.version == 1 && e.algorithm == "XChaCha20-Poly1305" && e.kdf == "argon2id"
    && e.time > 0 && e.memoryKiB > 0 && e.parallelism > 0
  }

  /** The eight bytes ZS3ENC1 and a newline, the length of the header in four bytes, the header, the rest. */
  ghost predicate IsLaidOut(data: Bytes, header: Bytes, ciphertext: Bytes) {
    && |data| == 12 + |header| + |ciphertext| && header != []
    && data[..8] == [0x5A, 0x53, 0x33, 0x45, 0x4E, 0x43, 0x31, 0x0A]
    && |header| == (data[8] as int) * 0x100_0000 + (data[9] as int) * 0x1_0000 + (data[10] as int) * 0x100 + data[11]
    && data[12..12 + |header|] == header && data[12 + |header|..] == ciphertext
  }

  /** Under a header, sealed with the nonce it names by the key the passphrase and the header's parameters derive. */
  ghost predicate SealedUnder(c: Crypto, passphrase: string, body: Bytes, nonce: Bytes, data: Bytes, header: Bytes) {
    exists e, ciphertext ::
      && IsLaidOut(body, header, ciphertext) && c.unmarshal(header) == Some(e) && IsStandard(e)
      && e.nonce == c.toBase64(nonce)
      && ciphertext == c.seal(c.derive(passphrase, "zfs-s3nd/storage-encryption/v1", 3, 65536, 4), nonce, data, header)
  }

  /** What the base store holds of some data put under a key: a manifest as it is, a chunk sealed. */
  ghost predicate AtRest(c: Crypto, passphrase: string, key: Key, body: Bytes, nonce: Bytes, data: Bytes) {
    match key
    case ManifestKey(_, _) => body == data
    case ChunkKey(_, _, _) => exists header :: SealedUnder(c, passphrase, body, nonce, data, header)
  }

  /** An object in the right layout, under a supported header, opened by the key derived for that header. */
  ghost predicate OpensUnder(c: Crypto, passphrase: string, body: Bytes, data: Bytes, header: Bytes) {
    exists ciphertext, e, nonce ::
      && IsLaidOut(body, header, ciphertext) && c.unmarshal(header) == Some(e) && IsSupported(e)
      && c.fromBase64(e.nonce) == Some(nonce)
      && c.open(c.derive(passphrase, e.salt, e.time, e.memoryKiB, e.parallelism), nonce, ciphertext, header) == Some(data)
  }

  ghost predicate OpensTo(c: Crypto, passphrase: string, body: Bytes, data: Bytes) {
    exists header :: OpensUnder(c, passphrase, body, data, header)
  }

  lemma EncodedLaidOut(header: Bytes, ciphertext: Bytes)
    requires 1 <= |header| < WORD
    ensures IsLaidOut(Encode(header, ciphertext), header, ciphertext)
  {
    hide BigEndian32;
    EncodedLength(header, ciphertext);
    var e := Encode(header, ciphertext);
    assert e[12..] == header + ciphertext;
    assert e[12..12 + |header|] == e[12..][..|header|] && e[12 + |header|..] == e[12..][|header|..];
    Bytes32(e[8..12]);
  }

  lemma Bytes32(b: Bytes)
    requires |b| == 4
    ensures FromBigEndian32(b) == (b[0] as int) * 0x100_0000 + (b[1] as int) * 0x1_0000 + (b[2] as int) * 0x100 + b[3]
  {
  }

  lemma DecodedLaidOut(data: Bytes, header: Bytes, ciphertext: Bytes)
    ensures MAGIC <= data && Decode(data) == Some((header, ciphertext)) <==> IsLaidOut(data, header, ciphertext)
  {
    hide FromBigEndian32;
    if |data| >= 12 {
      Bytes32(data[8..12]);
    }
  }

  lemma SealedAtRest(c: Crypto, passphrase: string, nonce: Bytes, data: Bytes, body: Bytes)
    requires Sound(c) && |nonce| == NONCE_SIZE
    requires var e := Header(c, nonce); var header := c.marshal(e);
      body == Encode(header, c.seal(FreshKey(c, passphrase, e), nonce, data, header))
    ensures SealedUnder(c, passphrase, body, nonce, data, c.marshal(Header(c, nonce)))
  {
    hide Encode, IsLaidOut;
    var e := Header(c, nonce);
    var header := c.marshal(e);
    var ciphertext := c.seal(FreshKey(c, passphrase, e), nonce, data, header);
    EncodedLaidOut(header, ciphertext);
    assert IsLaidOut(body, header, ciphertext) && c.unmarshal(header) == Some(e);
  }

  lemma OpenedIs(c: Crypto, passphrase: string, body: Bytes, data: Bytes)
    ensures Opened(c, passphrase, body) == Some(data) <==> OpensTo(c, passphrase, body, data)
  {
    hide Decode, IsLaidOut;
    if Opened(c, passphrase, body) == Some(data) {
      var (header, ciphertext) := Decode(body).value;
      DecodedLaidOut(body, header, ciphertext);
      assert c.unmarshal(header).Some? && IsLaidOut(body, header, ciphertext);
      assert OpensUnder(c, passphrase, body, data, header);
    }
    if header :| OpensUnder(c, passphrase, body, data, header) {
      var ciphertext, e, nonce :|
        && IsLaidOut(body, header, ciphertext) && c.unmarshal(header) == Some(e) && IsSupported(e)
        && c.fromBase64(e.nonce) == Some(nonce)
        && c.open(c.derive(passphrase, e.salt, e.time, e.memoryKiB, e.parallelism), nonce, ciphertext, header) == Some(data);
      DecodedLaidOut(body, header, ciphertext);
    }
  }

  /** The keys stored as they are, and isPlaintextMetadataKey of the same key as a string. */
  lemma PlaintextByText(root: string, key: Key)
    requires Keys.ValidNames(key.ds, key.snapshot)
    ensures Keys.ByteName(key.ds, key.snapshot)
    ensures Plaintext(key) <==> Keys.PlaintextMetadata(Keys.Render(root, key))
  {
    Keys.OnlyManifestsArePlaintext(root, key);
  }

  /** A base store of envelopes that behaves, through its methods, as a store of plaintext. */
  class EncryptedStore {
    const base: MemoryStore
    const crypto: Crypto
    const passphrase: string
    var keyCache: map<string, Bytes>

    constructor (base: MemoryStore, crypto: Crypto, passphrase: string)
      requires Sound(crypto)
      ensures this.base == base && this.crypto == crypto && this.passphrase == passphrase && Valid()
    {
      this.base, this.crypto, this.passphrase := base, crypto, passphrase;
      keyCache := map[];
    }

    /** Every cached key is what a fresh key derivation would give. */
    ghost predicate Valid()
      reads this
    {
      Sound(crypto) && CacheTrue(crypto, passphrase, keyCache)
    }

    ghost function View(): Objects
      reads base
    {
      Shows(crypto, passphrase, base.objects)
    }

    /** aeadFor: the key, from the cache or derived and cached. */
    method AeadFor(e: Envelope) returns (key: Option<Bytes>)
      requires Valid()
      modifies this`keyCache
      ensures Valid()
      ensures key == if Supported(e) then Some(FreshKey(crypto, passphrase, e)) else None
      ensures key.Some? <==> IsSupported(e)
      ensures key.Some? ==> key.value == crypto.derive(passphrase, e.salt, e.time, e.memoryKiB, e.parallelism)
    {
      if e.version != KDF_VERSION || e.algorithm != STORAGE_ENCRYPTION.algorithm || e.kdf != STORAGE_ENCRYPTION.kdf {
        return None;
      }
      if e.time == 0 || e.memoryKiB == 0 || e.parallelism == 0 {
        return None;
      }
      var cacheKey := CacheKey(e.salt, e.time, e.memoryKiB, e.parallelism);
      if cacheKey in keyCache {
        return Some(keyCache[cacheKey]);
      }
      var derived := crypto.derive(passphrase, e.salt, e.time, e.memoryKiB, e.parallelism);
      CacheGrows(crypto, passphrase, keyCache, e);
      keyCache := keyCache[cacheKey := derived];
      return Some(derived);
    }

    method PutBytes(l: Lib, key: Key, data: Bytes, nonce: Bytes) returns (info: Option<ObjectInfo>)
      requires Valid() && |nonce| == NONCE_SIZE
      modifies this`keyCache, base
      ensures Valid() && base.calls == old(base.calls) + 1
      ensures info.Some? <==> base.plan(old(base.calls)) == Done
      ensures info.Some? ==> info.value == ObjectInfo(|data|, l.sha(data))
      ensures View() == if base.plan(old(base.calls)) == Lost then old(View()) else old(View())[key := data]
      ensures base.plan(old(base.calls)) == Lost ==> base.objects == old(base.objects)
      ensures base.plan(old(base.calls)) != Lost ==>
        && key in base.objects && base.objects == old(base.objects)[key := base.objects[key]]
        && AtRest(crypto, passphrase, key, base.objects[key], nonce, data)
    {
      hide Sound, CacheTrue, Shows, Sealed, Opened, FreshKey, Encode, Shown, SealedUnder;
      if key.ManifestKey? {
        assert Shown(crypto, passphrase, key, data) == Some(data) by { PlainShown(crypto, passphrase, key, data); }
        ShowsPut(crypto, passphrase, base.objects, key, data, data);
        info := base.PutBytes(l, key, data);
        return;
      }
      var e := Header(crypto, nonce);
      var header := crypto.marshal(e);
      var aead := AeadFor(e);
      var ciphertext := crypto.seal(aead.value, nonce, data, header);
      var body := Encode(header, ciphertext);
      assert Shown(crypto, passphrase, key, body) == Some(data) && AtRest(crypto, passphrase, key, body, nonce, data) by {
        SealedShown(crypto, passphrase, key, nonce, data);
        SealedAtRest(crypto, passphrase, nonce, data, body);
      }
      ShowsPut(crypto, passphrase, base.objects, key, data, body);
      var put := base.PutBytes(l, key, body);
      info := if put.Some? then Some(ObjectInfo(|data|, l.sha(data))) else None;
    }

    method GetBytes(key: Key) returns (data: Option<Bytes>)
      requires Valid()
      modifies this`keyCache
      ensures Valid()
      ensures data == if key in View() then Some(View()[key]) else None
      ensures key !in base.objects ==> data.None?
      ensures key.ManifestKey? && key in base.objects ==> data == Some(base.objects[key])
      ensures key.ChunkKey? && key in base.objects ==>
        forall x :: data == Some(x) <==> OpensTo(crypto, passphrase, base.objects[key], x)
    {
      hide Sound, CacheTrue, FreshKey, OpensTo, Decode, Supported;
      if key in base.objects {
        forall x ensures Opened(crypto, passphrase, base.objects[key]) == Some(x)
                    <==> OpensTo(crypto, passphrase, base.objects[key], x) {
          OpenedIs(crypto, passphrase, base.objects[key], x);
        }
      }
      var body := base.GetBytes(key);
      if body.None? || key.ManifestKey? {
        return body;
      }
      if !(MAGIC <= body.value) {
        return None;
      }
      var decoded := Decode(body.value);
      if decoded.None? {
        return None;
      }
      var (header, ciphertext) := decoded.value;
      var e := crypto.unmarshal(header);
      if e.None? {
        return None;
      }
      var nonce := crypto.fromBase64(e.value.nonce);
      if nonce.None? {
        return None;
      }
      var aead := AeadFor(e.value);
      if aead.None? {
        return None;
      }
      data := crypto.open(aead.value, nonce.value, ciphertext, header);
    }

    /** Head decrypts the object, so its size and hash are those of the plaintext. */
    method Head(l: Lib, key: Key) returns (info: Option<ObjectInfo>)
      requires Valid()
      modifies this`keyCache
      ensures Valid()
      ensures info == if key in View() then Some(ObjectInfo(|View()[key]|, l.sha(View()[key]))) else None
    {
      var data := GetBytes(key);
      if data.None? {
        return None;
      }
      return Some(ObjectInfo(|data.value|, l.sha(data.value)));
    }

    method Delete(key: Key) returns (ok: bool)
      requires Valid()
      modifies base
      ensures base.calls == old(base.calls) + 1
      ensures ok <==> base.plan(old(base.calls)) == Done
      ensures View() == if base.plan(old(base.calls)) == Lost then old(View()) else old(View()) - {key}
      ensures base.objects == if base.plan(old(base.calls)) == Lost then old(base.objects) else old(base.objects) - {key}
    {
      hide Shows, Sound, CacheTrue;
      ShowsDelete(crypto, passphrase, base.objects, key);
      ok := base.Delete(key);
    }
  }

  lemma PlainShown(c: Crypto, passphrase: string, key: Key, data: Bytes)
    requires Plaintext(key)
    ensures Shown(c, passphrase, key, data) == Some(data)
  {
  }

  lemma SealedShown(c: Crypto, passphrase: string, key: Key, nonce: Bytes, data: Bytes)
    requires Sound(c) && |nonce| == NONCE_SIZE && !Plaintext(key)
    ensures var e := Header(c, nonce); var header := c.marshal(e);
      Shown(c, passphrase, key, Encode(header, c.seal(FreshKey(c, passphrase, e), nonce, data, header))) == Some(data)
  {
    hide Opened, Encode, FreshKey, Sound;
    SealedOpens(c, passphrase, nonce, data);
  }
}
