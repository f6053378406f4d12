// The token a fire carries (worker/src/work-log.ts): its claims and their
// signature, in unpadded base64url. The signature is any function of the
// secret and the text, and the claims' JSON any codec that reads back what it
// prints.

module Base64 {
  import opened Wrappers

  type Six = n: nat | n < 64 witness 0

  function CharOf(k: Six): char
  {
    if k < 26 then ('A' as int + k) as char
    else if k < 52 then ('a' as int + k - 26) as char
    else if k < 62 then ('0' as int + k - 52) as char
    else if k == 62 then '+'
    else '/'
  }

  function CodeOf(ch: char): Option<Six> {
    if 'A' <= ch <= 'Z' then Some(ch as int - 'A' as int)
    else if 'a' <= ch <= 'z' then Some(ch as int - 'a' as int + 26)
    else if '0' <= ch <= '9' then Some(ch as int - '0' as int + 52)
    else if ch == '+' then Some(62)
    else if ch == '/' then Some(63)
    else None
  }

  // Four codes of six bits from three bytes.
  function FirstCode(x: Byte): Six {
    x / 4
  }

  function SecondCode(x: Byte, y: Byte): Six {
    x % 4 * 16 + y / 16
  }

  function ThirdCode(y: Byte, z: Byte): Six {
    y % 16 * 4 + z / 64
  }

  function FourthCode(z: Byte): Six {
    z % 64
  }

  /** btoa: RFC 4648's base64, padded. */
  function Btoa(b: seq<Byte>): string {
    if b == [] then ""
    else if |b| == 1 then [CharOf(FirstCode(b[0])), CharOf(SecondCode(b[0], 0)), '=', '=']
    else if |b| == 2 then [CharOf(FirstCode(b[0])), CharOf(SecondCode(b[0], b[1])), CharOf(ThirdCode(b[1], 0)), '=']
    else
      [CharOf(FirstCode(b[0])), CharOf(SecondCode(b[0], b[1])), CharOf(ThirdCode(b[1], b[2])), CharOf(FourthCode(b[2]))]
      + Btoa(b[3..])
  }

  function Replaced(s: string, from: char, to: char): string {
    if s == "" then "" else [if s[0] == from then to else s[0]] + Replaced(s[1..], from, to)
  }

  function Unpadded(s: string): string {
    if s != "" && s[|s| - 1] == '=' then Unpadded(s[..|s| - 1]) else s
  }

  /** The URL-safe alphabet, and no padding (RFC 4648, section 5). */
  function Encode(b: seq<Byte>): string {
    Unpadded(Replaced(Replaced(Btoa(b), '+', '-'), '/', '_'))
  }

  predicate IsBlank(ch: char) {
    ch in " \t\n\r" || ch as int == 12
  }

  function NoBlanks(s: string): string {
    if s == "" then "" else (if IsBlank(s[0]) then "" else [s[0]]) + NoBlanks(s[1..])
  }

  /** The codes of a text, if every character has one. */
  function Codes(s: string): Option<seq<Six>> {
    if s == "" then Some([])
    else
      match (CodeOf(s[0]), Codes(s[1..]))
      case (Some(k), Some(more)) => Some([k] + more)
      case _ => None
  }

  // Three bytes from four codes of six bits.
  function First(a: nat, b: nat): Byte
    requires a < 64 && b < 64
  {
    a * 4 + b / 16
  }

  function Second(b: nat, c: nat): Byte
    requires b < 64 && c < 64
  {
    b % 16 * 16 + c / 4
  }

  function Third(c: nat, d: nat): Byte
    requires c < 64 && d < 64
  {
    c % 4 * 64 + d
  }

  /** The codes' bytes; the spare bits of a last short group go. */
  function BytesOf(k: seq<Six>): seq<Byte> {
    if |k| < 2 then []
    else if |k| == 2 then [First(k[0], k[1])]
    else if |k| == 3 then [First(k[0], k[1]), Second(k[1], k[2])]
    else [First(k[0], k[1]), Second(k[1], k[2]), Third(k[2], k[3])] + BytesOf(k[4..])
  }

  /** atob: blanks out, at most two pads off a text in whole groups, and no
      single character left over. */
  function Atob(text: string): Option<seq<Byte>> {
    var bare := NoBlanks(text);
    var s := if |bare| % 4 != 0 then bare
             else if |bare| >= 2 && bare[|bare| - 2..] == "==" then bare[..|bare| - 2]
             else if |bare| >= 1 && bare[|bare| - 1] == '=' then bare[..|bare| - 1]
             else bare;
    if |s| % 4 == 1 then None
    else
      match Codes(s)
      case None => None
      case Some(k) => Some(BytesOf(k))
  }

  function Decode(s: string): Option<seq<Byte>> {
    Atob(Replaced(Replaced(s, '-', '+'), '_', '/'))
  }

  // --- the round trip ---

  /** The codes of a byte sequence, six bits at a time. */
  function Sixes(b: seq<Byte>): seq<Six> {
    if b == [] then []
    else if |b| == 1 then [FirstCode(b[0]), SecondCode(b[0], 0)]
    else if |b| == 2 then [FirstCode(b[0]), SecondCode(b[0], b[1]), ThirdCode(b[1], 0)]
    else [FirstCode(b[0]), SecondCode(b[0], b[1]), ThirdCode(b[1], b[2]), FourthCode(b[2])] + Sixes(b[3..])
  }

  function CharsOf(k: seq<Six>): string {
    if k == [] then "" else [CharOf(k[0])] + CharsOf(k[1..])
  }

  function Pads(n: nat): string {
    if n % 3 == 1 then "==" else if n % 3 == 2 then "=" else ""
  }

  lemma {:induction false} CharsOfJoin(a: seq<Six>, b: seq<Six>)
    ensures CharsOf(a + b) == CharsOf(a) + CharsOf(b)
  {
    if a == [] {
      assert a + b == b;
    } else {
      assert (a + b)[1..] == a[1..] + b;
      CharsOfJoin(a[1..], b);
    }
  }

  lemma CharsOfOne(a: Six)
    ensures CharsOf([a]) == [CharOf(a)]
  {
    assert [a][1..] == [];
  }

  lemma FewChars(a: Six, b: Six, c: Six, d: Six)
    ensures CharsOf([a, b]) == [CharOf(a), CharOf(b)]
    ensures CharsOf([a, b, c]) == [CharOf(a), CharOf(b), CharOf(c)]
    ensures CharsOf([a, b, c, d]) == [CharOf(a), CharOf(b), CharOf(c), CharOf(d)]
  {
    hide CharsOf, CharOf;
    CharsOfOne(a);
    CharsOfOne(b);
    CharsOfOne(c);
    CharsOfOne(d);
    CharsOfJoin([a], [b]);
    CharsOfJoin([a] + [b], [c]);
    CharsOfJoin([a] + [b] + [c], [d]);
    assert [a, b] == [a] + [b] && [a, b, c] == [a] + [b] + [c] && [a, b, c, d] == [a] + [b] + [c] + [d];
  }

  lemma OnePads(a: Six, b: Six)
    ensures CharsOf([a, b]) + "==" == [CharOf(a), CharOf(b), '=', '=']
  {
    hide CharOf, CharsOf;
    FewChars(a, b, 0, 0);
  }

  lemma TwoPads(a: Six, b: Six, c: Six)
    ensures CharsOf([a, b, c]) + "=" == [CharOf(a), CharOf(b), CharOf(c), '=']
  {
    hide CharOf, CharsOf;
    FewChars(a, b, c, 0);
  }

  lemma OneIs(b: seq<Byte>)
    requires |b| == 1
    ensures Btoa(b) == [CharOf(FirstCode(b[0])), CharOf(SecondCode(b[0], 0)), '=', '=']
    ensures Sixes(b) == [FirstCode(b[0]), SecondCode(b[0], 0)] && Pads(|b|) == "=="
  {
    hide CharOf, FirstCode, SecondCode, ThirdCode, FourthCode;
  }

  lemma TwoAre(b: seq<Byte>)
    requires |b| == 2
    ensures Btoa(b) == [CharOf(FirstCode(b[0])), CharOf(SecondCode(b[0], b[1])), CharOf(ThirdCode(b[1], 0)), '=']
    ensures Sixes(b) == [FirstCode(b[0]), SecondCode(b[0], b[1]), ThirdCode(b[1], 0)] && Pads(|b|) == "="
  {
    hide CharOf, FirstCode, SecondCode, ThirdCode, FourthCode;
  }

  lemma BtoaShort(b: seq<Byte>)
    requires 1 <= |b| <= 2
    ensures Btoa(b) == CharsOf(Sixes(b)) + Pads(|b|)
  {
    hide CharOf, CharsOf, Btoa, Sixes, Pads, FirstCode, SecondCode, ThirdCode, FourthCode;
    if |b| == 1 {
      OneIs(b);
      OnePads(FirstCode(b[0]), SecondCode(b[0], 0));
    } else {
      TwoAre(b);
      TwoPads(FirstCode(b[0]), SecondCode(b[0], b[1]), ThirdCode(b[1], 0));
    }
  }

  lemma BtoaMore(b: seq<Byte>)
    requires |b| >= 3
    ensures Btoa(b) ==
      [CharOf(FirstCode(b[0])), CharOf(SecondCode(b[0], b[1])), CharOf(ThirdCode(b[1], b[2])), CharOf(FourthCode(b[2]))]
      + Btoa(b[3..])
  {
    hide CharOf, FirstCode, SecondCode, ThirdCode, FourthCode;
  }

  lemma SixesMore(b: seq<Byte>)
    requires |b| >= 3
    ensures Sixes(b) ==
      [FirstCode(b[0]), SecondCode(b[0], b[1]), ThirdCode(b[1], b[2]), FourthCode(b[2])] + Sixes(b[3..])
  {
    hide FirstCode, SecondCode, ThirdCode, FourthCode;
  }

  lemma PadsMore(n: nat)
    requires n >= 3
    ensures Pads(n) == Pads(n - 3)
  {
  }

  lemma NothingIs()
    ensures Btoa([]) == "" && CharsOf(Sixes([])) == "" && Pads(0) == ""
  {
  }

  lemma {:induction false} BtoaIs(b: seq<Byte>)
    ensures Btoa(b) == CharsOf(Sixes(b)) + Pads(|b|)
    decreases |b|
  {
    hide CharOf, CharsOf, Btoa, Sixes, Pads, FirstCode, SecondCode, ThirdCode, FourthCode;
    if b == [] {
      NothingIs();
    } else if |b| < 3 {
      BtoaShort(b);
    } else {
      BtoaIs(b[3..]);
      BtoaMore(b);
      SixesMore(b);
      PadsMore(|b|);
      var x, y, z, w := FirstCode(b[0]), SecondCode(b[0], b[1]), ThirdCode(b[1], b[2]), FourthCode(b[2]);
      FewChars(x, y, z, w);
      CharsOfJoin([x, y, z, w], Sixes(b[3..]));
    }
  }

  /** The URL-safe character of a code. */
  function UrlChar(k: Six): char {
    if k == 62 then '-' else if k == 63 then '_' else CharOf(k)
  }

  function UrlChars(k: seq<Six>): string {
    if k == [] then "" else [UrlChar(k[0])] + UrlChars(k[1..])
  }

  lemma {:induction false} ReplacedJoin(a: string, b: string, from: char, to: char)
    ensures Replaced(a + b, from, to) == Replaced(a, from, to) + Replaced(b, from, to)
  {
    if a == "" {
      assert a + b == b;
    } else {
      assert (a + b)[1..] == a[1..] + b;
      ReplacedJoin(a[1..], b, from, to);
    }
  }

  lemma {:induction false} UrlReplaced(k: seq<Six>)
    ensures Replaced(Replaced(CharsOf(k), '+', '-'), '/', '_') == UrlChars(k)
    ensures Replaced(Replaced(UrlChars(k), '-', '+'), '_', '/') == CharsOf(k)
    ensures forall ch | ch in UrlChars(k) :: ch != '=' && ch != '.'
  {
    if k != [] {
      UrlReplaced(k[1..]);
    }
  }

  lemma PadsReplaced(n: nat)
    ensures Replaced(Replaced(Pads(n), '+', '-'), '/', '_') == Pads(n)
  {
    assert "=="[1..] == "=" && "="[1..] == "";
    assert Replaced("=", '+', '-') == "=" && Replaced("=", '/', '_') == "=";
    assert Replaced("==", '+', '-') == "==" && Replaced("==", '/', '_') == "==";
  }

  lemma UnpaddedIs(s: string, n: nat)
    requires '=' !in s
    ensures Unpadded(s + Pads(n)) == s
  {
    assert s != "" ==> s[|s| - 1] in s;
    assert Unpadded(s) == s;
    assert (s + "=")[..|s|] == s;
    assert Unpadded(s + "=") == Unpadded(s);
    assert (s + "==")[..|s| + 1] == s + "=";
    assert Unpadded(s + "==") == Unpadded(s + "=");
    assert s + "" == s;
  }

  /** The encoding is the codes in the URL-safe alphabet, and nothing else. */
  lemma EncodeIs(b: seq<Byte>)
    ensures Encode(b) == UrlChars(Sixes(b))
  {
    hide Btoa, Sixes, CharsOf, UrlChars, Replaced, Unpadded;
    var k := Sixes(b);
    BtoaIs(b);
    ReplacedJoin(CharsOf(k), Pads(|b|), '+', '-');
    ReplacedJoin(Replaced(CharsOf(k), '+', '-'), Replaced(Pads(|b|), '+', '-'), '/', '_');
    UrlReplaced(k);
    PadsReplaced(|b|);
    UnpaddedIs(UrlChars(k), |b|);
  }

  lemma CodeBack(k: Six)
    ensures CodeOf(CharOf(k)) == Some(k) && !IsBlank(CharOf(k)) && CharOf(k) != '='
  {
  }

  lemma {:induction false} CodesBack(k: seq<Six>)
    ensures Codes(CharsOf(k)) == Some(k)
    ensures NoBlanks(CharsOf(k)) == CharsOf(k)
    ensures |CharsOf(k)| == |k| && '=' !in CharsOf(k)
  {
    hide CharOf, CodeOf, IsBlank;
    if k != [] {
      CodeBack(k[0]);
      CodesBack(k[1..]);
      assert k == [k[0]] + k[1..];
    }
  }

  lemma SixesShort(b: seq<Byte>)
    requires |b| < 3
    ensures BytesOf(Sixes(b)) == b && |Sixes(b)| % 4 != 1
  {
  }

  lemma ThreeBack(x: Byte, y: Byte, z: Byte)
    ensures First(FirstCode(x), SecondCode(x, y)) == x
    ensures Second(SecondCode(x, y), ThirdCode(y, z)) == y
    ensures Third(ThirdCode(y, z), FourthCode(z)) == z
  {
  }

  lemma {:induction false} SixesBack(b: seq<Byte>)
    ensures BytesOf(Sixes(b)) == b
    ensures |Sixes(b)| % 4 != 1
    decreases |b|
  {
    hide First, Second, Third, FirstCode, SecondCode, ThirdCode, FourthCode;
    if b != [] {
      ThreeBack(b[0], if |b| > 1 then b[1] else 0, if |b| > 2 then b[2] else 0);
    }
    if |b| >= 3 {
      SixesBack(b[3..]);
      var k := Sixes(b);
      assert k[4..] == Sixes(b[3..]);
      assert b == [b[0], b[1], b[2]] + b[3..];
    } else {
      SixesShort(b);
    }
  }

  lemma NoPads(s: string)
    requires '=' !in s
    ensures |s| >= 2 ==> s[|s| - 2..] != "=="
    ensures |s| >= 1 ==> s[|s| - 1] != '='
  {
    if |s| >= 1 {
      assert s[|s| - 1] in s;
    }
    if |s| >= 2 {
      assert s[|s| - 2..][0] == s[|s| - 2] && s[|s| - 2] in s;
    }
  }

  lemma AtobBack(k: seq<Six>)
    requires |k| % 4 != 1
    ensures Atob(CharsOf(k)) == Some(BytesOf(k))
  {
    hide CharsOf, BytesOf, Codes, NoBlanks;
    CodesBack(k);
    NoPads(CharsOf(k));
  }

  /** Unpadded base64url decoding inverts encoding, for every byte sequence, and
      the encoded text never contains a dot. */
  lemma Base64RoundTrip(b: seq<Byte>)
    ensures Decode(Encode(b)) == Some(b)
    ensures '.' !in Encode(b)
  {
    hide Encode, Sixes, CharsOf, UrlChars, Replaced, BytesOf, Atob;
    var k := Sixes(b);
    EncodeIs(b);
    UrlReplaced(k);
    SixesBack(b);
    AtobBack(k);
  }

  lemma EncodedIsSome(b: seq<Byte>)
    requires b != []
    ensures Encode(b) != ""
  {
    EncodeIs(b);
  }
}

module Token {
  import opened Wrappers
  import opened Base64

  datatype Claims = Claims(owner: string, repo: string, item: int, routine: string, exp: int, jti: string)

  /** The secret's signature, and the claims' JSON as bytes. */
  datatype Codec = Codec(mac: (string, string) -> seq<Byte>, show: Claims -> seq<Byte>, read: seq<Byte> -> Option<Claims>)

  /** What is assumed of them: claims read back as they were shown, and a
      signature is never empty. */
  ghost predicate Faithful(x: Codec) {
    (forall k :: x.read(x.show(k)) == Some(k) && x.show(k) != []) && (forall s, t :: x.mac(s, t) != [])
  }

  function Lower(s: string): string {
    if s == "" then ""
    else [if 'A' <= s[0] <= 'Z' then (s[0] as int + 32) as char else s[0]] + Lower(s[1..])
  }

  /** A fire's claims: its item and routine, good for `ttlMinutes` from `now`,
      with a random id. */
  function ClaimsFor(owner: string, repo: string, item: int, routine: string, ttlMinutes: int, now: int, random: seq<Byte>): Claims {
    Claims(Lower(owner), Lower(repo), item, routine, now + ttlMinutes * 60_000, Encode(random))
  }

  function Mint(x: Codec, secret: string, full: Claims): string {
    var payload := Encode(x.show(full));
    payload + "." + Encode(x.mac(secret, payload))
  }

  /** A text cut at its dots. */
  function Split(s: string): (parts: seq<string>)
    ensures parts != []
  {
    if s == "" then [""]
    else
      var more := Split(s[1..]);
      if s[0] == '.' then [""] + more else [[s[0]] + more[0]] + more[1..]
  }

  /** The claims' own checks: read, not expired, and each of them there. */
  function Claimed(x: Codec, payload: string, now: int): Option<Claims> {
    match Decode(payload)
    case None => None
    case Some(bytes) =>
      match x.read(bytes)
      case None => None
      case Some(k) =>
        if k.exp < now || k.owner == "" || k.repo == "" || k.routine == "" || k.jti == "" then None else Some(k)
  }

  function Verify(x: Codec, secret: string, token: string, now: int): Option<Claims> {
    var parts := Split(token);
    if |parts| != 2 || parts[0] == "" || parts[1] == "" then None
    else
      match Decode(parts[1])
      case None => None
      case Some(given) => if given == x.mac(secret, parts[0]) then Claimed(x, parts[0], now) else None
  }

  // --- the comparison that takes the same time whatever differs ---

  /** The bits two numbers differ in, and the bits of either. */
  function Xor(a: nat, b: nat): nat {
    if a == 0 && b == 0 then 0 else Xor(a / 2, b / 2) * 2 + if a % 2 != b % 2 then 1 else 0
  }

  function Or(a: nat, b: nat): nat {
    if a == 0 && b == 0 then 0 else Or(a / 2, b / 2) * 2 + if a % 2 == 1 || b % 2 == 1 then 1 else 0
  }

  lemma {:induction false} XorIsZero(a: nat, b: nat)
    ensures Xor(a, b) == 0 <==> a == b
    decreases a + b
  {
    if a != 0 || b != 0 {
      XorIsZero(a / 2, b / 2);
    }
  }

  lemma {:induction false} OrIsZero(a: nat, b: nat)
    ensures Or(a, b) == 0 <==> a == 0 && b == 0
    decreases a + b
  {
    if a != 0 || b != 0 {
      OrIsZero(a / 2, b / 2);
    }
  }

  method SameBytes(given: seq<Byte>, expected: seq<Byte>) returns (same: bool)
    ensures same <==> given == expected
  {
    if |given| != |expected| {
      return false;
    }
    var diff := 0;
    for i := 0 to |given|
      invariant diff == 0 <==> given[..i] == expected[..i]
    {
      var d := Xor(given[i], expected[i]);
      XorIsZero(given[i], expected[i]);
      OrIsZero(diff, d);
      diff := Or(diff, d);
      assert given[..i + 1] == given[..i] + [given[i]];
      assert expected[..i + 1] == expected[..i] + [expected[i]];
      assert given[..i] == expected[..i] && given[i] == expected[i] <==> given[..i + 1] == expected[..i + 1] by {
        if given[..i + 1] == expected[..i + 1] {
          assert given[..i + 1][i] == expected[..i + 1][i];
          assert given[..i] == given[..i + 1][..i] && expected[..i] == expected[..i + 1][..i];
        }
      }
    }
    assert given[..|given|] == given && expected[..|given|] == expected;
    same := diff == 0;
  }

  method VerifyLogToken(x: Codec, secret: string, token: string, now: int) returns (r: Option<Claims>)
    ensures r == Verify(x, secret, token, now)
  {
    var parts := Split(token);
    if |parts| != 2 || parts[0] == "" || parts[1] == "" {
      return None;
    }
    var expected := x.mac(secret, parts[0]);
    var given := Decode(parts[1]);
    if given.None? {
      return None;
    }
    var same := SameBytes(given.value, expected);
    if !same {
      return None;
    }
    r := Claimed(x, parts[0], now);
  }

  // --- what a minted token says ---

  lemma {:induction false} NoDotSplits(s: string)
    requires '.' !in s
    ensures Split(s) == [s]
  {
    if s != "" {
      NoDotSplits(s[1..]);
      assert [s[0]] + s[1..] == s;
    }
  }

  lemma {:induction false} OneDotSplits(a: string, b: string)
    requires '.' !in a && '.' !in b
    ensures Split(a + "." + b) == [a, b]
  {
    var s := a + "." + b;
    if a == "" {
      assert s == "." + b;
      assert s[1..] == b;
      NoDotSplits(b);
    } else {
      assert s[1..] == a[1..] + "." + b;
      OneDotSplits(a[1..], b);
      assert [a[0]] + a[1..] == a;
    }
  }

  /** A minted token verifies, giving its claims, exactly until it expires (for
      claims that name an owner, a repo and a routine, as every fire's do). */
  lemma MintedTokenVerifies(x: Codec, secret: string, full: Claims, now: int)
    requires Faithful(x)
    ensures Verify(x, secret, Mint(x, secret, full), now) ==
      if now <= full.exp && full.owner != "" && full.repo != "" && full.routine != "" && full.jti != "" then Some(full) else None
  {
    hide Encode, Decode, Split;
    var payload := Encode(x.show(full));
    var sig := x.mac(secret, payload);
    Base64RoundTrip(x.show(full));
    Base64RoundTrip(sig);
    assert x.show(full) != [] && x.read(x.show(full)) == Some(full);
    EncodedIsSome(x.show(full));
    EncodedIsSome(sig);
    OneDotSplits(payload, Encode(sig));
  }

  /** A fire's own token: good for exactly its time to live. */
  lemma FireTokenLivesItsTime(
    x: Codec, secret: string, owner: string, repo: string, item: int, routine: string, ttlMinutes: int, minted: int,
    random: seq<Byte>, now: int)
    requires Faithful(x) && owner != "" && repo != "" && routine != "" && |random| == 9
    ensures var full := ClaimsFor(owner, repo, item, routine, ttlMinutes, minted, random);
      Verify(x, secret, Mint(x, secret, full), now) == if now <= minted + ttlMinutes * 60_000 then Some(full) else None
  {
    hide Encode, Verify, Mint;
    MintedTokenVerifies(x, secret, ClaimsFor(owner, repo, item, routine, ttlMinutes, minted, random), now);
    EncodedIsSome(random);
  }

  function Joined(parts: seq<string>): string
    requires parts != []
  {
    if |parts| == 1 then parts[0] else parts[0] + "." + Joined(parts[1..])
  }

  lemma {:induction false} SplitJoins(s: string)
    ensures Joined(Split(s)) == s
    ensures forall p | p in Split(s) :: '.' !in p
  {
    if s != "" {
      var more := Split(s[1..]);
      SplitJoins(s[1..]);
      if s[0] == '.' {
        assert ([""] + more)[1..] == more;
        assert s == "" + "." + Joined(more);
      } else {
        var parts := [[s[0]] + more[0]] + more[1..];
        assert parts[1..] == more[1..];
        assert Joined(parts) == [s[0]] + Joined(more);
        assert more[0] in more && forall p | p in more[1..] :: p in more;
      }
    }
  }

  /** A token that says `full` at `now` and bears the secret's signature of what
      it says, written without a word of how it is read. */
  ghost predicate Signed(x: Codec, secret: string, token: string, now: int, full: Claims, payload: string, sig: string) {
    && token == payload + "." + sig && payload != "" && sig != "" && '.' !in payload && '.' !in sig
    && Decode(sig) == Some(x.mac(secret, payload))
    && Decode(payload).Some? && x.read(Decode(payload).value) == Some(full)
    && now <= full.exp && full.owner != "" && full.repo != "" && full.routine != "" && full.jti != ""
  }

  /** A token verifies as exactly the claims it was signed for: no other text
      verifies, and every signed one does. */
  lemma OnlySignedVerifies(x: Codec, secret: string, token: string, now: int, full: Claims)
    ensures Verify(x, secret, token, now) == Some(full) <==>
      exists payload, sig :: Signed(x, secret, token, now, full, payload, sig)
  {
    hide Decode, Split;
    if Verify(x, secret, token, now) == Some(full) {
      var parts := Split(token);
      SplitJoins(token);
      assert parts[1..] == [parts[1]] && Joined(parts) == parts[0] + "." + parts[1];
      assert Signed(x, secret, token, now, full, parts[0], parts[1]);
    }
    if payload, sig :| Signed(x, secret, token, now, full, payload, sig) {
      OneDotSplits(payload, sig);
    }
  }
}
