// The DER wrapping of a PKCS#1 key as PKCS#8 (worker/src/github-app.ts): the
// Distinguished Encoding Rules of ITU-T X.690, and RFC 5208's PrivateKeyInfo.

module Der {
  import opened Wrappers

  /** A JavaScript shift is on 32 bits, signed: the lengths it serves. */
  const MAX_LENGTH: nat := 0x8000_0000

  /** n as big-endian bytes, none for zero. */
  function BigEndian(n: nat): seq<Byte> {
    if n == 0 then [] else BigEndian(n / 256) + [n % 256]
  }

  function ValueOf(bytes: seq<Byte>): nat {
    if bytes == [] then 0 else ValueOf(bytes[..|bytes| - 1]) * 256 + bytes[|bytes| - 1]
  }

  lemma {:induction false} BigEndianBack(n: nat)
    ensures ValueOf(BigEndian(n)) == n
    ensures n > 0 ==> BigEndian(n) != [] && BigEndian(n)[0] != 0
    decreases n
  {
    if n > 0 {
      BigEndianBack(n / 256);
      var bytes := BigEndian(n / 256) + [n % 256];
      assert bytes[..|bytes| - 1] == BigEndian(n / 256);
      if n / 256 == 0 {
        assert BigEndian(n / 256) == [];
        assert bytes == [n % 256];
      } else {
        assert bytes[0] == BigEndian(n / 256)[0];
      }
    }
  }

  function Pow256(k: nat): nat {
    if k == 0 then 1 else 256 * Pow256(k - 1)
  }

  lemma {:induction false} ShortBytes(n: nat, k: nat)
    requires n < Pow256(k)
    ensures |BigEndian(n)| <= k
    decreases k
  {
    if n > 0 {
      assert n / 256 < Pow256(k - 1);
      ShortBytes(n / 256, k - 1);
    }
  }

  lemma FourBytes(n: nat)
    requires n < MAX_LENGTH
    ensures |BigEndian(n)| <= 4
  {
    assert Pow256(1) == 256;
    assert Pow256(2) == 256 * 256;
    assert Pow256(3) == 256 * Pow256(2);
    assert Pow256(4) == 256 * Pow256(3);
    ShortBytes(n, 4);
  }

  /** A length's encoding: short form under 128, else 0x80 plus the number of
      bytes, and the bytes. */
  function Length(n: nat): seq<Byte>
    requires n < MAX_LENGTH
  {
    FourBytes(n);
    if n < 0x80 then [n] else [0x80 + |BigEndian(n)|] + BigEndian(n)
  }

  /** Its bytes put in front one by one, from the least, by shifting. */
  method DerLength(n: nat) returns (r: seq<Byte>)
    requires n < MAX_LENGTH
    ensures r == Length(n)
  {
    if n < 0x80 {
      return [n];
    }
    var bytes: seq<Byte> := [];
    var v := n;
    while v > 0
      invariant BigEndian(v) + bytes == BigEndian(n)
    {
      assert BigEndian(v) + bytes == BigEndian(v / 256) + ([v % 256] + bytes);
      bytes := [v % 256] + bytes;
      v := v / 256;
    }
    assert bytes == BigEndian(n);
    FourBytes(n);
    r := [0x80 + |bytes|] + bytes;
  }

  /** A length read back (X.690, section 8.1.3), with what follows it: in DER
      (section 10.1) only the definite form, with no octet it does not need. */
  function ReadLength(s: seq<Byte>): (r: Option<(nat, seq<Byte>)>)
    ensures r.Some? ==> |r.value.1| < |s|
  {
    if s == [] then None
    else if s[0] < 0x80 then Some((s[0], s[1..]))
    else
      var k := s[0] - 0x80;
      if k == 0 || k == 127 || |s| < 1 + k then None
      else
        var bytes := s[1..1 + k];
        var n := ValueOf(bytes);
        if bytes[0] == 0 || n < 0x80 then None else Some((n, s[1 + k..]))
  }

  /** Decoding a length's encoding gives it, and leaves what followed. */
  lemma LengthRoundTrip(n: nat, rest: seq<Byte>)
    requires n < MAX_LENGTH
    ensures ReadLength(Length(n) + rest) == Some((n, rest))
  {
    BigEndianBack(n);
    FourBytes(n);
    var s := Length(n) + rest;
    if n < 0x80 {
      assert s[1..] == rest;
    } else {
      var k := |BigEndian(n)|;
      assert s[1..1 + k] == BigEndian(n);
      assert s[1 + k..] == rest;
    }
  }

  lemma {:induction false} NoLeadingZero(bytes: seq<Byte>)
    requires bytes == [] || bytes[0] != 0
    ensures BigEndian(ValueOf(bytes)) == bytes
    decreases |bytes|
  {
    if bytes != [] {
      var front := bytes[..|bytes| - 1];
      NoLeadingZero(front);
      NotZero(bytes);
      assert bytes == front + [bytes[|bytes| - 1]];
    }
  }

  lemma {:induction false} NotZero(bytes: seq<Byte>)
    requires bytes != [] && bytes[0] != 0
    ensures ValueOf(bytes) > 0
    decreases |bytes|
  {
    if |bytes| > 1 {
      NotZero(bytes[..|bytes| - 1]);
    }
  }

  /** It is the only encoding DER allows, so the shortest. */
  lemma LengthIsUnique(s: seq<Byte>, n: nat, rest: seq<Byte>)
    requires n < MAX_LENGTH && ReadLength(s) == Some((n, rest))
    ensures s == Length(n) + rest
  {
    if s[0] < 0x80 {
      assert s == [s[0]] + s[1..];
    } else {
      var k := s[0] - 0x80;
      NoLeadingZero(s[1..1 + k]);
      assert s == [s[0]] + s[1..1 + k] + s[1 + k..];
    }
  }

  // --- tag, length, value ---

  function Tlv(tag: Byte, value: seq<Byte>): seq<Byte>
    requires |value| < MAX_LENGTH
  {
    [tag] + Length(|value|) + value
  }

  function ReadTlv(s: seq<Byte>, tag: Byte): (r: Option<(seq<Byte>, seq<Byte>)>)
    ensures r.Some? ==> |r.value.1| < |s|
  {
    if s == [] || s[0] != tag then None
    else
      match ReadLength(s[1..])
      case None => None
      case Some((n, rest)) => if |rest| < n then None else Some((rest[..n], rest[n..]))
  }

  lemma TlvRoundTrip(tag: Byte, value: seq<Byte>, rest: seq<Byte>)
    requires |value| < MAX_LENGTH
    ensures ReadTlv(Tlv(tag, value) + rest, tag) == Some((value, rest))
  {
    hide Length, ReadLength;
    var s := Tlv(tag, value) + rest;
    LengthRoundTrip(|value|, value + rest);
    assert s[1..] == Length(|value|) + (value + rest);
    assert (value + rest)[..|value|] == value && (value + rest)[|value|..] == rest;
  }

  // --- PKCS#8 ---

  const SEQUENCE: Byte := 0x30
  const INTEGER: Byte := 0x02
  const OCTET_STRING: Byte := 0x04
  const VERSION: seq<Byte> := [0x02, 0x01, 0x00]
  const RSA_ENCRYPTION: seq<Byte> :=
    [0x30, 0x0d, 0x06, 0x09, 0x2a, 0x86, 0x48, 0x86, 0xf7, 0x0d, 0x01, 0x01, 0x01, 0x05, 0x00]

  /** The rsaEncryption object identifier and its NULL parameters. */
  const RSA_ALGORITHM: seq<Byte> := [0x06, 0x09, 0x2a, 0x86, 0x48, 0x86, 0xf7, 0x0d, 0x01, 0x01, 0x01, 0x05, 0x00]

  /** The key as the octets of a PrivateKeyInfo, both lengths written out. */
  function Pkcs8(key: seq<Byte>): seq<Byte>
    requires |key| + 24 < MAX_LENGTH
  {
    FourBytes(|key|);
    var octets := [OCTET_STRING] + Length(|key|);
    var contentLength := |VERSION| + |RSA_ENCRYPTION| + |octets| + |key|;
    [SEQUENCE] + Length(contentLength) + VERSION + RSA_ENCRYPTION + octets + key
  }

  datatype PrivateKeyInfo = PrivateKeyInfo(version: seq<Byte>, algorithm: seq<Byte>, privateKey: seq<Byte>)

  /** A PrivateKeyInfo's three fields (RFC 5208, section 5), its optional
      attributes left. */
  function ReadFields(content: seq<Byte>): Option<PrivateKeyInfo> {
    match ReadTlv(content, INTEGER)
    case None => None
    case Some((version, more)) =>
      match ReadTlv(more, SEQUENCE)
      case None => None
      case Some((algorithm, last)) =>
        match ReadTlv(last, OCTET_STRING)
        case None => None
        case Some((key, _)) => Some(PrivateKeyInfo(version, algorithm, key))
  }

  function Unwrap(s: seq<Byte>): Option<PrivateKeyInfo> {
    match ReadTlv(s, SEQUENCE)
    case Some((content, rest)) => if rest == [] then ReadFields(content) else None
    case None => None
  }

  /** The constants of the wrapping are what they stand for. */
  lemma ConstantsAreTlvs()
    ensures Tlv(INTEGER, [0]) == VERSION
    ensures Tlv(SEQUENCE, RSA_ALGORITHM) == RSA_ENCRYPTION
  {
    assert Length(1) == [1] && Length(13) == [13];
    assert |RSA_ALGORITHM| == 13;
  }

  /** Both nested lengths are right: the wrapping is one SEQUENCE around its
      three fields, and nothing is left over. */
  lemma Pkcs8IsNested(key: seq<Byte>)
    requires |key| + 24 < MAX_LENGTH
    ensures var content := Tlv(INTEGER, [0]) + (Tlv(SEQUENCE, RSA_ALGORITHM) + Tlv(OCTET_STRING, key));
      |content| < MAX_LENGTH && Pkcs8(key) == Tlv(SEQUENCE, content)
  {
    hide Length;
    FourBytes(|key|);
    LengthSize(|key|);
    ConstantsAreTlvs();
    var content := Tlv(INTEGER, [0]) + (Tlv(SEQUENCE, RSA_ALGORITHM) + Tlv(OCTET_STRING, key));
    assert content == VERSION + RSA_ENCRYPTION + ([OCTET_STRING] + Length(|key|)) + key;
  }

  lemma LengthSize(n: nat)
    requires n < MAX_LENGTH
    ensures |Length(n)| <= 5
  {
    FourBytes(n);
  }

  /** Unwrapping what a PKCS#1 key is wrapped as yields exactly its bytes, under
      version 0 and rsaEncryption. */
  lemma Pkcs8RoundTrip(key: seq<Byte>)
    requires |key| + 24 < MAX_LENGTH
    ensures Unwrap(Pkcs8(key)) == Some(PrivateKeyInfo([0], RSA_ALGORITHM, key))
  {
    hide Length, ReadTlv, Tlv;
    var version := Tlv(INTEGER, [0]);
    var algorithm := Tlv(SEQUENCE, RSA_ALGORITHM);
    var octets := Tlv(OCTET_STRING, key);
    var content := version + (algorithm + octets);
    Pkcs8IsNested(key);
    TlvRoundTrip(SEQUENCE, content, []);
    assert Tlv(SEQUENCE, content) + [] == Tlv(SEQUENCE, content);
    TlvRoundTrip(INTEGER, [0], algorithm + octets);
    TlvRoundTrip(SEQUENCE, RSA_ALGORITHM, octets);
    TlvRoundTrip(OCTET_STRING, key, []);
    assert octets + [] == octets;
  }
}
