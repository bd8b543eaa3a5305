/** Hidden-service keys and Tor's on-disk key files. */
module Keys {
  import opened Base32
  import opened Text
  import opened Wrappers
  import Onion

  /** SHA-512 enters only through its output length. */
  type Digest512 = d: seq<Byte> | |d| == 64 witness seq(64, i => 0)
  type Hash512 = seq<Byte> -> Digest512

  const TAG_SECRET: string := "== ed25519v1-secret: type0 =="
  const TAG_PUBLIC: string := "== ed25519v1-public: type0 =="
  const HEADER_LEN := 32
  const EXPANDED_LEN := 64
  const SEED_SIZE := 32
  const SECRET_FILE_SIZE := HEADER_LEN + EXPANDED_LEN
  const PUBLIC_FILE_SIZE := HEADER_LEN + Onion.KEY_SIZE

  /** A key in the expanded form Tor keeps on disk. */
  datatype KeyPair = KeyPair(publicKey: seq<Byte>, expanded: seq<Byte>) {
    predicate Valid() {
      |publicKey| == Onion.KEY_SIZE && LooksClamped(expanded) && |expanded| == EXPANDED_LEN
    }

    function Address(): Onion.OnionAddress {
      match Onion.AddressFromPublicKey(publicKey)
      case Ok(a) => a
      case Err(_) => Onion.OnionAddress([])
    }

    function Hostname(sha3: Onion.Hash256): string {
      Onion.String(sha3, Address()) + "\n"
    }

    function SecretKeyFile(): seq<Byte> {
      Header(TAG_SECRET) + expanded
    }

    function PublicKeyFile(): seq<Byte> {
      Header(TAG_PUBLIC) + publicKey
    }
  }

  /** The tag, padded with NUL to 32 bytes. */
  function Header(tag: string): (h: seq<Byte>)
    requires Ascii(tag) && |tag| <= HEADER_LEN
    ensures |h| == HEADER_LEN
  {
    Onion.AsciiBytes(tag) + seq(HEADER_LEN - |tag|, i => 0)
  }

  /** The bit pattern of a clamped scalar: low three bits clear, top bit clear, next bit set. */
  predicate LooksClamped(body: seq<Byte>) {
    |body| >= EXPANDED_LEN && body[0] & 0x07 == 0 && body[31] & 0xC0 == 0x40
  }

  /** The clamping of section 5.1.5 of RFC 8032. */
  function Clamp(h: seq<Byte>): (r: seq<Byte>)
    requires |h| == EXPANDED_LEN
    ensures |r| == EXPANDED_LEN
  {
    h[0 := h[0] & 248][31 := (h[31] & 127) | 64]
  }

  /** The five bits that RFC 8032 forces are forced, and every other bit is as it was. */
  predicate OtherBitsKept(h: seq<Byte>, r: seq<Byte>)
    requires |h| == |r| == 64
  {
    && r[0] & 0x07 == 0 && r[0] & 0xF8 == h[0] & 0xF8
    && r[31] & 0xC0 == 0x40 && r[31] & 0x3F == h[31] & 0x3F
    && forall i | 0 <= i < 64 && i != 0 && i != 31 :: r[i] == h[i]
  }

  /** The program clears and sets the bits of a local array in place. */
  method ExpandSeed(sha512: Hash512, seed: seq<Byte>) returns (expanded: seq<Byte>)
    requires |seed| == SEED_SIZE
    ensures expanded == Clamp(sha512(seed))
    ensures |expanded| == 64 && LooksClamped(expanded)
    ensures OtherBitsKept(sha512(seed), expanded)
  {
    hide LooksClamped, OtherBitsKept;
    var digest := sha512(seed);
    var h := new Byte[EXPANDED_LEN](i requires 0 <= i < |digest| => digest[i]);
    assert h[..] == digest;
    h[0] := h[0] & 248;
    h[31] := h[31] & 127;
    h[31] := h[31] | 64;
    expanded := h[..];
    ClampedInPlace(digest, expanded);
  }

  lemma ClampedInPlace(h: seq<Byte>, r: seq<Byte>)
    requires |h| == |r| == 64 && r[0] == h[0] & 248 && r[31] == (h[31] & 127) | 64
    requires forall i | 0 <= i < 64 && i != 0 && i != 31 :: r[i] == h[i]
    ensures r == Clamp(h) && LooksClamped(r) && OtherBitsKept(h, r)
  {
    assert r == Clamp(h);
    ClampKeepsBits(h);
    ClampFixedPoints(h);
  }

  /** A fresh key from an ed25519 public key and its seed. */
  method GenerateKeyPair(sha512: Hash512, pub: seq<Byte>, seed: seq<Byte>) returns (k: KeyPair)
    requires |pub| == Onion.KEY_SIZE && |seed| == SEED_SIZE
    ensures k.Valid() && k == KeyPair(pub, Clamp(sha512(seed)))
    ensures k.expanded[0] & 0xF8 == sha512(seed)[0] & 0xF8 && k.expanded[31] & 0x3F == sha512(seed)[31] & 0x3F
    ensures forall i | 0 <= i < 64 && i != 0 && i != 31 :: k.expanded[i] == sha512(seed)[i]
  {
    var expanded := ExpandSeed(sha512, seed);
    k := KeyPair(pub, expanded);
  }

  function ParseSecretKey(data: seq<Byte>): Result<seq<Byte>> {
    if |data| != SECRET_FILE_SIZE then Err("secret key file has the wrong size")
    else if data[..HEADER_LEN] != Header(TAG_SECRET) then Err("secret key file has wrong magic header")
    else if !LooksClamped(data[HEADER_LEN..]) then Err("secret key scalar is not bit-clamped")
    else Ok(data[HEADER_LEN..])
  }

  function ParsePublicKey(data: seq<Byte>): Result<seq<Byte>> {
    if |data| != PUBLIC_FILE_SIZE then Err("public key file has the wrong size")
    else if data[..HEADER_LEN] != Header(TAG_PUBLIC) then Err("public key file has wrong magic header")
    else Ok(data[HEADER_LEN..])
  }

  /** Whether the two files form a pair is not checked. */
  function ParseFiles(secret: seq<Byte>, public: seq<Byte>): Result<KeyPair> {
    match ParseSecretKey(secret)
    case Err(e) => Err(e)
    case Ok(expanded) =>
      match ParsePublicKey(public)
      case Err(e) => Err(e)
      case Ok(pub) => Ok(KeyPair(pub, expanded))
  }

  // ---------------------------------------------------------------- a master key supplied by the user

  /** The two data fields of a master key Secret; a missing field counts as an empty one. */
  datatype MasterData = MasterData(secret: seq<Byte>, public: seq<Byte>)

  /** Scalar multiplication of the base point enters as an unknown function. */
  type Derive = seq<Byte> -> seq<Byte>

  /** Here the two files have to be a pair: the public key is derived from the scalar, clamped once more. */
  function ValidateMasterKey(derive: Derive, data: MasterData): (r: Result<KeyPair>) {
    if data.secret == [] then Err("missing hs_ed25519_secret_key")
    else if data.public == [] then Err("missing hs_ed25519_public_key")
    else
      match ParseFiles(data.secret, data.public)
      case Err(e) => Err(e)
      case Ok(k) =>
        if |k.expanded| == EXPANDED_LEN && derive(Clamp(k.expanded)[..32]) == data.public[HEADER_LEN..] then Ok(k)
        else Err("the two files do not form a pair")
  }

  /**
   * The accepted Secrets are exactly those with the two files of a valid key whose public key is derived from
   * its scalar; the second clamping makes no difference.
   */
  lemma MasterKeyExactly(derive: Derive, data: MasterData, k: KeyPair)
    ensures ValidateMasterKey(derive, data) == Ok(k) <==>
            && k.Valid() && data == MasterData(k.SecretKeyFile(), k.PublicKeyFile())
            && derive(k.expanded[..32]) == k.publicKey
  {
    hide LooksClamped, Clamp, ParseSecretKey, ParsePublicKey, ParseFiles, Header;
    ParseFilesExactly(data.secret, data.public, k);
    if k.Valid() {
      ClampFixedPoints(k.expanded);
      assert k.PublicKeyFile()[HEADER_LEN..] == k.publicKey;
    }
  }

  lemma ClampBits(a: Byte, b: Byte)
    ensures (a & 248) & 0x07 == 0 && ((b & 127) | 64) & 0xC0 == 0x40
    ensures a & 248 == a <==> a & 0x07 == 0
    ensures (b & 127) | 64 == b <==> b & 0xC0 == 0x40
  {
  }

  /** Clamping forces five bits and keeps all others; one result only does that. */
  lemma ClampKeepsBits(h: seq<Byte>)
    requires |h| == 64
    ensures OtherBitsKept(h, Clamp(h))
  {
    ClampBits(h[0], h[31]);
  }

  lemma OtherBitsDecide(h: seq<Byte>, r: seq<Byte>, q: seq<Byte>)
    requires |h| == |r| == |q| == 64 && OtherBitsKept(h, r) && OtherBitsKept(h, q)
    ensures r == q
  {
    BitsDecide(r[0], q[0], r[31], q[31]);
    assert r[0] == q[0] && r[31] == q[31];
  }

  lemma BitsDecide(a: Byte, x: Byte, b: Byte, y: Byte)
    ensures a & 0x07 == x & 0x07 && a & 0xF8 == x & 0xF8 ==> a == x
    ensures b & 0xC0 == y & 0xC0 && b & 0x3F == y & 0x3F ==> b == y
  {
  }

  /** The bytes of the two files: Tor's tag, three NULs, and the key itself. */
  lemma FilesSpelled(k: KeyPair)
    requires k.Valid()
    ensures k.SecretKeyFile() == Onion.AsciiBytes("== ed25519v1-secret: type0 ==") + [0, 0, 0] + k.expanded
    ensures k.PublicKeyFile() == Onion.AsciiBytes("== ed25519v1-public: type0 ==") + [0, 0, 0] + k.publicKey
    ensures |k.SecretKeyFile()| == 96 && |k.PublicKeyFile()| == 64
  {
  }

  /** The clamped scalars are exactly the fixed points of clamping, and clamping always lands there. */
  lemma ClampFixedPoints(h: seq<Byte>)
    requires |h| == EXPANDED_LEN
    ensures LooksClamped(Clamp(h))
    ensures LooksClamped(h) <==> Clamp(h) == h
  {
    ClampBits(h[0], h[31]);
    if Clamp(h) == h {
      assert Clamp(h)[0] == h[0] & 248 && Clamp(h)[31] == (h[31] & 127) | 64;
    }
  }

  /**
   * The accepted pairs of files are exactly those a valid key renders to, so every valid key survives
   * the round trip and every accepted pair re-renders byte for byte.
   */
  lemma ParseFilesExactly(secret: seq<Byte>, public: seq<Byte>, k: KeyPair)
    ensures ParseFiles(secret, public) == Ok(k) <==>
            k.Valid() && secret == k.SecretKeyFile() && public == k.PublicKeyFile()
  {
    if ParseFiles(secret, public) == Ok(k) {
      assert secret == secret[..HEADER_LEN] + secret[HEADER_LEN..];
      assert public == public[..HEADER_LEN] + public[HEADER_LEN..];
    }
    if k.Valid() && secret == k.SecretKeyFile() && public == k.PublicKeyFile() {
      assert secret[HEADER_LEN..] == k.expanded && secret[..HEADER_LEN] == Header(TAG_SECRET);
      assert public[HEADER_LEN..] == k.publicKey && public[..HEADER_LEN] == Header(TAG_PUBLIC);
    }
  }

  /** An accepted secret key file survives one more clamping of its scalar unchanged. */
  lemma AcceptedSecretIsClampFixed(data: seq<Byte>)
    requires ParseSecretKey(data).Ok?
    ensures data == Header(TAG_SECRET) + Clamp(ParseSecretKey(data).value)
  {
    ClampFixedPoints(data[HEADER_LEN..]);
    assert data == data[..HEADER_LEN] + data[HEADER_LEN..];
  }

  /** The hostname file names the key: it parses to the address and to no other. */
  lemma HostnameNamesTheKey(sha3: Onion.Hash256, k: KeyPair, a: Onion.OnionAddress, text: string)
    requires k.Valid() && a.Valid() && text == k.Hostname(sha3)
    ensures Onion.ParseAddress(sha3, text) == Ok(a) <==> a == k.Address()
    ensures |text| == 63 && text[62] == '\n' && text[..62] == Onion.String(sha3, Onion.OnionAddress(k.publicKey))
  {
    Onion.EchoFails(sha3, k.Address(), text);
  }
}
