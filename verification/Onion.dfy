/** Unpadded base32 of section 6 of RFC 4648, on byte strings whose length is a multiple of five. */
module Base32 {
  import opened Text
  import opened Wrappers

  type Byte = bv8

  const ALPHABET: string := "ABCDEFGHIJKLMNOPQRSTUVWXYZ234567"

  predicate IsSymbol(c: char) {
    'A' <= c <= 'Z' || '2' <= c <= '7'
  }

  predicate AllSymbols(s: string) {
    forall i | 0 <= i < |s| :: IsSymbol(s[i])
  }

  function SymbolChar(v: Byte): (c: char)
    requires v < 32
    ensures IsSymbol(c)
  {
    ALPHABET[v as int]
  }

  function CharSymbol(c: char): (v: Byte)
    requires IsSymbol(c)
    ensures v < 32
  {
    if c <= '7' then (c as int - '2' as int + 26) as Byte else (c as int - 'A' as int) as Byte
  }

  lemma SymbolOfValue(v: Byte)
    requires v < 32
    ensures CharSymbol(SymbolChar(v)) == v
  {
  }

  lemma ValueOfSymbol(c: char)
    requires IsSymbol(c)
    ensures SymbolChar(CharSymbol(c)) == c
  {
  }

  /** Regroups five bytes into eight 5-bit values. */
  function EncodeGroup(b: seq<Byte>): (r: seq<Byte>)
    requires |b| == 5
    ensures |r| == 8 && forall i | 0 <= i < 8 :: r[i] < 32
  {
    [b[0] >> 3, ((b[0] & 7) << 2) | (b[1] >> 6), (b[1] >> 1) & 31, ((b[1] & 1) << 4) | (b[2] >> 4),
     ((b[2] & 15) << 1) | (b[3] >> 7), (b[3] >> 2) & 31, ((b[3] & 3) << 3) | (b[4] >> 5), b[4] & 31]
  }

  /** Regroups eight 5-bit values into five bytes. */
  function DecodeGroup(s: seq<Byte>): (r: seq<Byte>)
    requires |s| == 8
    ensures |r| == 5
  {
    [(s[0] << 3) | (s[1] >> 2), (s[1] << 6) | (s[2] << 1) | (s[3] >> 4), (s[3] << 4) | (s[4] >> 1),
     (s[4] << 7) | (s[5] << 2) | (s[6] >> 3), (s[6] << 5) | s[7]]
  }

  // ---------------------------------------------------------------- bits

  /** Bit `i` of a byte string, each byte's most significant bit first. */
  predicate Bit(b: seq<Byte>, i: nat)
    requires i < 8 * |b|
  {
    b[i / 8] & [0x80, 0x40, 0x20, 0x10, 0x08, 0x04, 0x02, 0x01][i % 8] != 0
  }

  /** Bits i to i+4 read as a number. */
  function FiveBits(b: seq<Byte>, i: nat): (v: nat)
    requires i + 5 <= 8 * |b|
    ensures v < 32
  {
    (if Bit(b, i) then 16 else 0) + (if Bit(b, i + 1) then 8 else 0) + (if Bit(b, i + 2) then 4 else 0) +
    (if Bit(b, i + 3) then 2 else 0) + if Bit(b, i + 4) then 1 else 0
  }

  lemma ValueOfFive(v: Byte)
    requires v < 32
    ensures v as int == (if v & 16 != 0 then 16 else 0) + (if v & 8 != 0 then 8 else 0) +
                        (if v & 4 != 0 then 4 else 0) + (if v & 2 != 0 then 2 else 0) + if v & 1 != 0 then 1 else 0
  {
  }

  /** Each bit of the eight values is one bit of the five bytes, in order. */
  lemma GroupMasks(b: seq<Byte>)
    requires |b| == 5
    ensures var v := EncodeGroup(b);
            (v[0] & 16 != 0) == Bit(b, 0) && (v[0] & 8 != 0) == Bit(b, 1) && (v[0] & 4 != 0) == Bit(b, 2) &&
            (v[0] & 2 != 0) == Bit(b, 3) && (v[0] & 1 != 0) == Bit(b, 4)
    ensures var v := EncodeGroup(b);
            (v[1] & 16 != 0) == Bit(b, 5) && (v[1] & 8 != 0) == Bit(b, 6) && (v[1] & 4 != 0) == Bit(b, 7) &&
            (v[1] & 2 != 0) == Bit(b, 8) && (v[1] & 1 != 0) == Bit(b, 9)
    ensures var v := EncodeGroup(b);
            (v[2] & 16 != 0) == Bit(b, 10) && (v[2] & 8 != 0) == Bit(b, 11) && (v[2] & 4 != 0) == Bit(b, 12) &&
            (v[2] & 2 != 0) == Bit(b, 13) && (v[2] & 1 != 0) == Bit(b, 14)
    ensures var v := EncodeGroup(b);
            (v[3] & 16 != 0) == Bit(b, 15) && (v[3] & 8 != 0) == Bit(b, 16) && (v[3] & 4 != 0) == Bit(b, 17) &&
            (v[3] & 2 != 0) == Bit(b, 18) && (v[3] & 1 != 0) == Bit(b, 19)
    ensures var v := EncodeGroup(b);
            (v[4] & 16 != 0) == Bit(b, 20) && (v[4] & 8 != 0) == Bit(b, 21) && (v[4] & 4 != 0) == Bit(b, 22) &&
            (v[4] & 2 != 0) == Bit(b, 23) && (v[4] & 1 != 0) == Bit(b, 24)
    ensures var v := EncodeGroup(b);
            (v[5] & 16 != 0) == Bit(b, 25) && (v[5] & 8 != 0) == Bit(b, 26) && (v[5] & 4 != 0) == Bit(b, 27) &&
            (v[5] & 2 != 0) == Bit(b, 28) && (v[5] & 1 != 0) == Bit(b, 29)
    ensures var v := EncodeGroup(b);
            (v[6] & 16 != 0) == Bit(b, 30) && (v[6] & 8 != 0) == Bit(b, 31) && (v[6] & 4 != 0) == Bit(b, 32) &&
            (v[6] & 2 != 0) == Bit(b, 33) && (v[6] & 1 != 0) == Bit(b, 34)
    ensures var v := EncodeGroup(b);
            (v[7] & 16 != 0) == Bit(b, 35) && (v[7] & 8 != 0) == Bit(b, 36) && (v[7] & 4 != 0) == Bit(b, 37) &&
            (v[7] & 2 != 0) == Bit(b, 38) && (v[7] & 1 != 0) == Bit(b, 39)
  {
  }

  /** Value `j` of a group holds the group's bits 5j to 5j+4. */
  lemma GroupBits(b: seq<Byte>, j: nat)
    requires |b| == 5 && j < 8
    ensures EncodeGroup(b)[j] as int == FiveBits(b, 5 * j)
  {
    hide EncodeGroup, Bit;
    ValueOfFive(EncodeGroup(b)[j]);
    GroupMasks(b);
  }

  lemma DecodeEncodeGroup(b: seq<Byte>)
    requires |b| == 5
    ensures DecodeGroup(EncodeGroup(b)) == b
  {
  }

  lemma EncodeDecodeGroup(s: seq<Byte>)
    requires |s| == 8 && forall i | 0 <= i < 8 :: s[i] < 32
    ensures EncodeGroup(DecodeGroup(s)) == s
  {
    assert s[0] < 32 && s[1] < 32 && s[2] < 32 && s[3] < 32 && s[4] < 32 && s[5] < 32 && s[6] < 32 && s[7] < 32;
  }

  function Symbols(v: seq<Byte>): (s: string)
    requires forall i | 0 <= i < |v| :: v[i] < 32
    ensures |s| == |v| && AllSymbols(s)
  {
    seq(|v|, i requires 0 <= i < |v| => SymbolChar(v[i]))
  }

  function Values(s: string): (v: seq<Byte>)
    requires AllSymbols(s)
    ensures |v| == |s| && forall i | 0 <= i < |v| :: v[i] < 32
  {
    seq(|s|, i requires 0 <= i < |s| => CharSymbol(s[i]))
  }

  /** The text of `n` groups. */
  function Encode(b: seq<Byte>, n: nat): (s: string)
    requires |b| == 5 * n
    ensures |s| == 8 * n && AllSymbols(s)
  {
    if n == 0 then "" else Symbols(EncodeGroup(b[..5])) + Encode(b[5..], n - 1)
  }

  /** The bytes of `n` groups. */
  function Decode(s: string, n: nat): (b: seq<Byte>)
    requires |s| == 8 * n && AllSymbols(s)
    ensures |b| == 5 * n
  {
    if n == 0 then [] else DecodeGroup(Values(s[..8])) + Decode(s[8..], n - 1)
  }

  function EncodeToString(b: seq<Byte>): (s: string)
    requires |b| % 5 == 0
    ensures |s| == 8 * (|b| / 5) && AllSymbols(s)
  {
    Encode(b, |b| / 5)
  }

  function DecodeSymbols(s: string): (b: seq<Byte>)
    requires |s| % 8 == 0 && AllSymbols(s)
    ensures |b| == 5 * (|s| / 8)
  {
    Decode(s, |s| / 8)
  }

  lemma ByteGroup(b: seq<Byte>)
    requires |b| == 5
    ensures DecodeGroup(Values(Symbols(EncodeGroup(b)))) == b
  {
    var g := EncodeGroup(b);
    forall i | 0 <= i < 8 {
      SymbolOfValue(g[i]);
    }
    assert Values(Symbols(g)) == g;
    DecodeEncodeGroup(b);
  }

  /** The first group of a decoding, which encodes back to the first eight symbols. */
  lemma FirstGroup(s: string, n: nat) returns (x: seq<Byte>)
    requires |s| == 8 * n && AllSymbols(s) && n > 0
    ensures |x| == 5 && Decode(s, n) == x + Decode(s[8..], n - 1)
    ensures Symbols(EncodeGroup(x)) == s[..8]
  {
    var v := Values(s[..8]);
    x := DecodeGroup(v);
    EncodeDecodeGroup(v);
    forall i | 0 <= i < 8 {
      ValueOfSymbol(s[i]);
    }
  }

  lemma EncodeFirst(x: seq<Byte>, rest: seq<Byte>, n: nat)
    requires |x| == 5 && |rest| == 5 * n
    ensures Encode(x + rest, n + 1) == Symbols(EncodeGroup(x)) + Encode(rest, n)
  {
    assert (x + rest)[..5] == x && (x + rest)[5..] == rest;
  }

  lemma BitOfTail(b: seq<Byte>, i: nat)
    requires |b| >= 5 && i < 8 * |b| - 40
    ensures Bit(b, i + 40) == Bit(b[5..], i)
  {
  }

  /** Symbol `k` of the text stands for bits 5k to 5k+4 of the bytes. */
  lemma {:induction false} EncodeSpells(b: seq<Byte>, n: nat, k: nat)
    requires |b| == 5 * n && k < 8 * n
    ensures Encode(b, n)[k] == "ABCDEFGHIJKLMNOPQRSTUVWXYZ234567"[FiveBits(b, 5 * k)]
  {
    hide EncodeGroup, Bit;
    var group := b[..5];
    if k < 8 {
      GroupBits(group, k);
      BitsOfHead(b, 5 * k);
      assert Encode(b, n)[k] == SymbolChar(EncodeGroup(group)[k]);
    } else {
      EncodeSpells(b[5..], n - 1, k - 8);
      var i := 5 * (k - 8);
      BitOfTail(b, i);
      BitOfTail(b, i + 1);
      BitOfTail(b, i + 2);
      BitOfTail(b, i + 3);
      BitOfTail(b, i + 4);
    }
  }

  lemma BitsOfHead(b: seq<Byte>, i: nat)
    requires |b| >= 5 && i + 5 <= 40
    ensures FiveBits(b[..5], i) == FiveBits(b, i)
  {
    assert forall k | 0 <= k < 5 :: b[..5][k] == b[k];
  }

  lemma {:induction false} DecodeEncode(b: seq<Byte>, n: nat)
    requires |b| == 5 * n
    ensures Decode(Encode(b, n), n) == b
  {
    if n > 0 {
      var head, rest := Symbols(EncodeGroup(b[..5])), Encode(b[5..], n - 1);
      assert Encode(b, n)[..8] == head && Encode(b, n)[8..] == rest;
      ByteGroup(b[..5]);
      DecodeEncode(b[5..], n - 1);
      assert b == b[..5] + b[5..];
    }
  }

  lemma {:induction false} EncodeDecode(s: string, n: nat)
    requires |s| == 8 * n && AllSymbols(s)
    ensures Encode(Decode(s, n), n) == s
  {
    hide EncodeGroup, DecodeGroup;
    if n > 0 {
      var x := FirstGroup(s, n);
      EncodeFirst(x, Decode(s[8..], n - 1), n - 1);
      EncodeDecode(s[8..], n - 1);
    }
  }
}

/** v3 onion addresses, section 6 of Tor's rend-spec-v3. */
module Onion {
  import opened Base32
  import opened Text
  import opened Wrappers

  /** SHA3-256 enters only through its output length; every result holds for any such function. */
  type Digest = d: seq<Byte> | |d| == 32 witness seq(32, i => 0)
  type Hash256 = seq<Byte> -> Digest

  const VERSION: Byte := 3
  const MAGIC: string := ".onion checksum"
  const SUFFIX: string := ".onion"
  const KEY_SIZE := 32
  const BODY_LEN := 35
  const BASE32_LEN := 56

  /** The zero value, which carries no key, is not a valid address. */
  datatype OnionAddress = OnionAddress(pubKey: seq<Byte>) {
    predicate Valid() {
      |pubKey| == KEY_SIZE
    }
  }

  function AsciiBytes(s: string): (b: seq<Byte>)
    requires Ascii(s)
    ensures |b| == |s|
  {
    seq(|s|, i requires 0 <= i < |s| => s[i] as int as Byte)
  }

  function AddressFromPublicKey(pub: seq<Byte>): Result<OnionAddress> {
    if |pub| != KEY_SIZE then Err("invalid ed25519 public key length") else Ok(OnionAddress(pub))
  }

  function Checksum(sha3: Hash256, pub: seq<Byte>): (c: seq<Byte>)
    ensures |c| == 2
  {
    sha3(AsciiBytes(MAGIC) + pub + [VERSION])[..2]
  }

  function Body(sha3: Hash256, pub: seq<Byte>): seq<Byte> {
    pub + Checksum(sha3, pub) + [VERSION]
  }

  /** The canonical "<56 characters>.onion" text; empty for the zero value. */
  function String(sha3: Hash256, a: OnionAddress): (s: string)
    ensures a.Valid() ==> |s| == 62
  {
    if |a.pubKey| != KEY_SIZE then ""
    else ToLower(EncodeToString(Body(sha3, a.pubKey))) + SUFFIX
  }

  function StripNewlines(s: string): (r: string)
    ensures |r| <= |s|
    ensures |r| == |s| ==> r == s
  {
    if s == [] then []
    else if s[0] == '\r' || s[0] == '\n' then StripNewlines(s[1..])
    else [s[0]] + StripNewlines(s[1..])
  }

  /**
   * The standard library's unpadded decoder. It skips line ends, rejects every other character outside
   * the alphabet, and turns n symbols into at most 5n/8 bytes; only whole groups can fill an address, so
   * a partial last group is cut off here.
   */
  function DecodeString(s: string): (r: Result<seq<Byte>>) {
    var t := StripNewlines(s);
    if !AllSymbols(t) then Err("invalid base32 in address")
    else
      Ok(DecodeSymbols(t[..|t| - |t| % 8]))
  }

  /** The tests on the decoded bytes. */
  function CheckBody(sha3: Hash256, raw: seq<Byte>): (r: Result<OnionAddress>)
    ensures r.Ok? ==> r.value.Valid()
  {
    if |raw| != BODY_LEN then Err("decoded address has wrong length")
    else if raw[34] != VERSION then Err("unexpected address version byte")
    else if Checksum(sha3, raw[..KEY_SIZE]) != raw[KEY_SIZE..34] then Err("address checksum mismatch")
    else Ok(OnionAddress(raw[..KEY_SIZE]))
  }

  function ParseAddress(sha3: Hash256, addr: string): (r: Result<OnionAddress>)
    ensures r.Ok? ==> r.value.Valid()
  {
    var lower := ToLower(TrimSpace(addr));
    var stripped := TrimSuffix(lower, SUFFIX);
    if stripped == lower then Err("address missing .onion suffix")
    else if |stripped| != BASE32_LEN then Err("address body has wrong length")
    else
      match DecodeString(ToUpper(stripped))
      case Err(e) => Err(e)
      case Ok(raw) => CheckBody(sha3, raw)
  }

  // ---------------------------------------------------------------- supporting facts

  lemma UpperOfLowerSymbols(s: string)
    requires AllSymbols(s)
    ensures ToUpper(ToLower(s)) == s
  {
  }

  lemma LowerOfUpper(s: string)
    requires ToLower(s) == s
    ensures ToLower(ToUpper(s)) == s
  {
    forall i | 0 <= i < |s|
      ensures ToLower(ToUpper(s))[i] == s[i]
    {
      assert ToLower(s)[i] == s[i];
    }
  }

  lemma LowerIdempotent(s: string)
    ensures ToLower(ToLower(s)) == ToLower(s)
  {
  }

  lemma LowerPart(s: string, n: nat)
    requires ToLower(s) == s && n <= |s|
    ensures ToLower(s[..n]) == s[..n]
  {
    forall i | 0 <= i < n
      ensures LowerChar(s[i]) == s[i]
    {
      assert ToLower(s)[i] == s[i];
    }
  }

  /** The bodies that pass the tests are exactly those a key encodes to. */
  lemma CheckedBodies(sha3: Hash256, raw: seq<Byte>, a: OnionAddress)
    ensures CheckBody(sha3, raw) == Ok(a) <==> a.Valid() && raw == Body(sha3, a.pubKey)
  {
    if a.Valid() {
      var b := Body(sha3, a.pubKey);
      assert b[..KEY_SIZE] == a.pubKey && b[KEY_SIZE..34] == Checksum(sha3, a.pubKey) && b[34] == VERSION;
    }
    if CheckBody(sha3, raw) == Ok(a) {
      assert raw == raw[..KEY_SIZE] + raw[KEY_SIZE..34] + [raw[34]];
    }
  }

  lemma {:induction false} NoNewlinesToStrip(s: string)
    requires AllSymbols(s)
    ensures StripNewlines(s) == s
  {
    if s != [] {
      assert IsSymbol(s[0]);
      NoNewlinesToStrip(s[1..]);
    }
  }

  lemma DecodeStringOfSymbols(s: string)
    requires |s| % 8 == 0 && AllSymbols(s)
    ensures DecodeString(s) == Ok(DecodeSymbols(s))
  {
    NoNewlinesToStrip(s);
    assert s[..|s| - |s| % 8] == s;
  }

  /** A full-length decode used every one of the 56 characters. */
  lemma FullDecode(s: string)
    requires |s| == BASE32_LEN && DecodeString(s).Ok? && |DecodeString(s).value| == BODY_LEN
    ensures AllSymbols(s)
  {
    var t := StripNewlines(s);
    assert |t| / 8 == 7;
    assert t == s;
  }

  /** Text of this shape is already trimmed and lower-case. */
  lemma CanonicalShape(e: string)
    requires |e| == BASE32_LEN && AllSymbols(e)
    ensures ToLower(TrimSpace(ToLower(e) + SUFFIX)) == ToLower(e) + SUFFIX
    ensures TrimSuffix(ToLower(e) + SUFFIX, SUFFIX) == ToLower(e)
  {
    var s := ToLower(e) + SUFFIX;
    assert s[0] == LowerChar(e[0]) && s[|s| - 1] == SUFFIX[5];
    assert TrimSpace(s) == s;
    forall i | 0 <= i < |s|
      ensures LowerChar(s[i]) == s[i]
    {
      assert s[i] == if i < |e| then LowerChar(e[i]) else SUFFIX[i - |e|];
    }
    assert s[..56] == ToLower(e) && s[56..] == SUFFIX;
  }

  lemma CanonicalText(sha3: Hash256, a: OnionAddress)
    requires a.Valid()
    ensures ToLower(TrimSpace(String(sha3, a))) == String(sha3, a)
  {
    CanonicalShape(EncodeToString(Body(sha3, a.pubKey)));
  }

  /** On text of this shape only the decoded bytes decide. */
  lemma ParseOfShape(sha3: Hash256, e: string)
    requires |e| == BASE32_LEN && AllSymbols(e)
    ensures ParseAddress(sha3, ToLower(e) + SUFFIX) == CheckBody(sha3, DecodeSymbols(e))
  {
    CanonicalShape(e);
    UpperOfLowerSymbols(e);
    DecodeStringOfSymbols(e);
  }

  /** An accepted text has this shape, up to outer blanks and letter case. */
  lemma ShapeOfAccepted(sha3: Hash256, s: string) returns (e: string)
    requires ParseAddress(sha3, s).Ok?
    ensures |e| == BASE32_LEN && AllSymbols(e)
    ensures ToLower(TrimSpace(s)) == ToLower(e) + SUFFIX
    ensures ParseAddress(sha3, s) == CheckBody(sha3, DecodeSymbols(e))
  {
    var lower := ToLower(TrimSpace(s));
    var stripped := TrimSuffix(lower, SUFFIX);
    e := ToUpper(stripped);
    assert lower == stripped + SUFFIX;
    LowerIdempotent(TrimSpace(s));
    LowerPart(lower, |stripped|);
    LowerOfUpper(stripped);
    FullDecode(e);
    DecodeStringOfSymbols(e);
  }

  // ---------------------------------------------------------------- main results

  /** The 35 bytes of an address in the terms of rend-spec-v3: key, checksum, version. */
  lemma BodySpelled(sha3: Hash256, pub: seq<Byte>)
    ensures Body(sha3, pub) ==
            pub + sha3([46, 111, 110, 105, 111, 110, 32, 99, 104, 101, 99, 107, 115, 117, 109] + pub + [3])[..2] + [3]
  {
    assert AsciiBytes(MAGIC) == [46, 111, 110, 105, 111, 110, 32, 99, 104, 101, 99, 107, 115, 117, 109];
  }

  /**
   * Which 62 characters are printed: character k of the first 56 is the letter or digit for bits 5k to 5k+4
   * of key, checksum and version byte 3, most significant bit first, so the last of them is always 'd'.
   */
  lemma TextSpelled(sha3: Hash256, pub: seq<Byte>, s: string, k: nat)
    requires |pub| == 32 && s == String(sha3, OnionAddress(pub)) && k < 56
    ensures var checksum :=
              sha3([46, 111, 110, 105, 111, 110, 32, 99, 104, 101, 99, 107, 115, 117, 109] + pub + [3])[..2];
            s[k] == "abcdefghijklmnopqrstuvwxyz234567"[FiveBits(pub + checksum + [3], 5 * k)]
    ensures |s| == 62 && s[55..] == "d.onion"
  {
    hide FiveBits, Body;
    BodySpelled(sha3, pub);
    var body := Body(sha3, pub);
    Lettered(body, k);
    EndsInD(body);
  }

  lemma EndsInD(body: seq<Byte>)
    requires |body| == 35 && body[34] == 3
    ensures (ToLower(EncodeToString(body)) + SUFFIX)[55..] == "d.onion"
  {
    hide FiveBits;
    Lettered(body, 55);
    FinalBits(body);
    var e := ToLower(EncodeToString(body));
    assert (e + SUFFIX)[55..] == [e[55]] + SUFFIX;
  }

  lemma Lettered(body: seq<Byte>, k: nat)
    requires |body| == 35 && k < 56
    ensures ToLower(EncodeToString(body))[k] == "abcdefghijklmnopqrstuvwxyz234567"[FiveBits(body, 5 * k)]
  {
    hide FiveBits, LowerChar, Encode;
    EncodeSpells(body, 7, k);
    LowerSymbol(FiveBits(body, 5 * k));
  }

  lemma LowerSymbol(v: nat)
    requires v < 32
    ensures LowerChar("ABCDEFGHIJKLMNOPQRSTUVWXYZ234567"[v]) == "abcdefghijklmnopqrstuvwxyz234567"[v]
  {
    if v < 26 {
      hide LowerChar;
      LetterCase(' ', v);
      assert "ABCDEFGHIJKLMNOPQRSTUVWXYZ234567"[v] == "ABCDEFGHIJKLMNOPQRSTUVWXYZ"[v];
      assert "abcdefghijklmnopqrstuvwxyz234567"[v] == "abcdefghijklmnopqrstuvwxyz"[v];
    }
  }

  lemma FinalBits(body: seq<Byte>)
    requires |body| == 35 && body[34] == 3
    ensures FiveBits(body, 275) == 3
  {
  }

  /** Printing then parsing returns the address. */
  lemma ParseOfString(sha3: Hash256, a: OnionAddress, s: string)
    requires a.Valid() && s == String(sha3, a)
    ensures ParseAddress(sha3, s) == Ok(a)
  {
    hide EncodeGroup, DecodeGroup, CharSymbol, SymbolChar, ParseAddress, CheckBody;
    var body := Body(sha3, a.pubKey);
    ParseOfShape(sha3, EncodeToString(body));
    DecodeEncode(body, 7);
    CheckedBodies(sha3, body, a);
  }

  /** Parsing then printing returns the accepted text, trimmed and in lower case. */
  lemma StringOfParse(sha3: Hash256, s: string, a: OnionAddress)
    requires ParseAddress(sha3, s) == Ok(a)
    ensures String(sha3, a) == ToLower(TrimSpace(s))
  {
    hide EncodeGroup, DecodeGroup, CharSymbol, SymbolChar, ParseAddress, CheckBody, Encode, Decode;
    var e := ShapeOfAccepted(sha3, s);
    CheckedBodies(sha3, DecodeSymbols(e), a);
    EncodeDecode(e, 7);
  }

  /** The accepted language: exactly the canonical texts, up to outer blanks and letter case. */
  lemma AcceptsExactly(sha3: Hash256, s: string, a: OnionAddress, canonical: string)
    requires a.Valid() && canonical == String(sha3, a)
    ensures ParseAddress(sha3, s) == Ok(a) <==> ToLower(TrimSpace(s)) == canonical
  {
    if ParseAddress(sha3, s) == Ok(a) {
      StringOfParse(sha3, s, a);
    }
    if ToLower(TrimSpace(s)) == canonical {
      CanonicalText(sha3, a);
      ParseOfString(sha3, a, canonical);
    }
  }

  lemma StringHasSuffix(sha3: Hash256, a: OnionAddress)
    requires a.Valid()
    ensures HasSuffix(String(sha3, a), SUFFIX)
  {
    var s := String(sha3, a);
    assert s[|s| - 6..] == SUFFIX;
  }

  lemma StringInjective(sha3: Hash256, a: OnionAddress, b: OnionAddress)
    requires a.Valid() && b.Valid() && String(sha3, a) == String(sha3, b)
    ensures a == b
  {
    ParseOfString(sha3, a, String(sha3, a));
    ParseOfString(sha3, b, String(sha3, b));
  }

  /**
   * The parser's documentation promises that an accepted text prints back to itself. That holds
   * exactly for text that is already trimmed and lower-case.
   */
  lemma EchoExactly(sha3: Hash256, s: string, a: OnionAddress)
    requires ParseAddress(sha3, s) == Ok(a)
    ensures String(sha3, a) == s <==> TrimSpace(s) == s && ToLower(s) == s
  {
    StringOfParse(sha3, s, a);
    if String(sha3, a) == s {
      TrimSpaceLength(s);
    }
  }

  /** An accepted text with a trailing line end does not print back to itself. */
  lemma EchoFails(sha3: Hash256, a: OnionAddress, s: string)
    requires a.Valid() && s == String(sha3, a) + "\n"
    ensures ParseAddress(sha3, s) == Ok(a) && String(sha3, a) != s
  {
    CanonicalText(sha3, a);
    TrimFinalNewline(EncodeToString(Body(sha3, a.pubKey)));
    AcceptsExactly(sha3, s, a, String(sha3, a));
  }

  lemma TrimFinalNewline(e: string)
    requires |e| == BASE32_LEN && AllSymbols(e)
    ensures TrimSpace(ToLower(e) + SUFFIX + "\n") == TrimSpace(ToLower(e) + SUFFIX)
  {
    var s := ToLower(e) + SUFFIX;
    var t := s + "\n";
    assert s[0] == LowerChar(e[0]) && t[0] == s[0];
    assert t[..|t| - 1] == s;
  }
}
