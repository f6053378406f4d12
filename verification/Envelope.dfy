// The outcome envelope (worker/src/coordinate/routine-signal.ts's applyOutcome,
// graph/github/from-github.ts's parseOutcomeArtifact, graph/outcomes.ts): an
// outcome printed as the comment it stands for, and read back out of one.

module Text {
  import opened Wrappers

  predicate StartsWith(s: string, p: string) {
    |p| <= |s| && s[..|p|] == p
  }

  /** The first place `p` occurs in `s`. */
  function IndexOf(s: string, p: string): Option<nat> {
    if StartsWith(s, p) then Some(0)
    else if s == "" then None
    else
      match IndexOf(s[1..], p)
      case None => None
      case Some(i) => Some(i + 1)
  }

  lemma {:induction false} IndexOfFirst(x: string, p: string, y: string)
    requires p != "" && p[0] !in x
    ensures IndexOf(x + p + y, p) == Some(|x|)
  {
    var s := x + p + y;
    if x == "" {
      assert s == p + y;
      assert s[..|p|] == p;
    } else {
      assert s[0] == x[0];
      assert s[..|p|][0] == s[0];
      assert s[1..] == x[1..] + p + y;
      IndexOfFirst(x[1..], p, y);
    }
  }

  lemma IndexOfBound(s: string, p: string)
    ensures IndexOf(s, p).Some? ==> IndexOf(s, p).value + |p| <= |s|
  {
  }

  /** ECMAScript's white space, as a pattern's \s. */
  predicate IsSpace(ch: char) {
    var k := ch as int;
    9 <= k <= 13 || k == 32 || k == 160 || k == 0x1680 || 0x2000 <= k <= 0x200a || k == 0x2028 || k == 0x2029
    || k == 0x202f || k == 0x205f || k == 0x3000 || k == 0xfeff
  }

  function TrimStart(s: string): string {
    if s != "" && IsSpace(s[0]) then TrimStart(s[1..]) else s
  }

  function TrimEnd(s: string): string {
    if s != "" && IsSpace(s[|s| - 1]) then TrimEnd(s[..|s| - 1]) else s
  }

  /** What a fenced json block holds: the text between the first opening fence
      and the first fence after it, white space at either end dropped. */
  function Fenced(body: string): Option<string> {
    match IndexOf(body, "```json")
    case None => None
    case Some(i) =>
      IndexOfBound(body, "```json");
      var text := TrimStart(body[i + 7..]);
      match IndexOf(text, "```")
      case None => None
      case Some(j) =>
        IndexOfBound(text, "```");
        Some(TrimEnd(text[..j]))
  }

  /** Text with no backtick, fenced on its own lines, is what the fence holds. */
  lemma FencedHolds(before: string, text: string)
    requires '`' !in before && '`' !in text
    requires text != "" && !IsSpace(text[0]) && !IsSpace(text[|text| - 1])
    ensures Fenced(before + "```json" + "\n" + text + "\n" + "```") == Some(text)
  {
    var close := "\n" + "```";
    var body := before + "```json" + "\n" + text + "\n" + "```";
    assert body == before + "```json" + ("\n" + text + close);
    IndexOfFirst(before, "```json", "\n" + text + close);
    var after := body[|before| + 7..];
    assert after == "\n" + (text + close);
    assert after[1..] == text + close;
    assert TrimStart(after) == TrimStart(text + close) == text + close;
    assert text + close == (text + "\n") + "```" + "";
    IndexOfFirst(text + "\n", "```", "");
    assert (text + close)[..|text| + 1] == text + "\n";
    assert (text + "\n")[..|text|] == text;
    assert TrimEnd(text + "\n") == TrimEnd(text) == text;
  }

  // --- the outcome's marker ---

  predicate NameChar(ch: char) {
    'a' <= ch <= 'z' || 'A' <= ch <= 'Z' || '0' <= ch <= '9' || ch == '_' || ch == '-'
  }

  predicate IsName(s: string) {
    s != "" && forall ch | ch in s :: NameChar(ch)
  }

  /** The name characters a text starts with. */
  function NameRun(s: string): nat
    ensures NameRun(s) <= |s|
  {
    if s != "" && NameChar(s[0]) then 1 + NameRun(s[1..]) else 0
  }

  const MARK_OPEN := "<!-- agent-outcome:"
  const MARK_CLOSE := " -->"

  /** The marker a text starts with, if it starts with one. */
  function MarkHere(s: string): Option<string> {
    if !StartsWith(s, MARK_OPEN) then None
    else
      var rest := s[|MARK_OPEN|..];
      var n := NameRun(rest);
      if n > 0 && StartsWith(rest[n..], MARK_CLOSE) then Some(rest[..n]) else None
  }

  /** The routine the first marker in a body names. */
  function Marker(body: string): Option<string> {
    if MarkHere(body).Some? then MarkHere(body) else if body == "" then None else Marker(body[1..])
  }

  lemma {:induction false} NameRunOf(name: string, rest: string)
    requires (forall ch | ch in name :: NameChar(ch)) && rest != "" && !NameChar(rest[0])
    ensures NameRun(name + rest) == |name|
  {
    if name == "" {
      assert name + rest == rest;
    } else {
      assert (name + rest)[1..] == name[1..] + rest;
      NameRunOf(name[1..], rest);
    }
  }

  lemma MarkerOf(name: string, rest: string)
    requires IsName(name)
    ensures Marker(MARK_OPEN + name + MARK_CLOSE + rest) == Some(name)
  {
    hide NameRun;
    var body := MARK_OPEN + name + MARK_CLOSE + rest;
    var after := body[|MARK_OPEN|..];
    assert body[..|MARK_OPEN|] == MARK_OPEN;
    assert after == name + (MARK_CLOSE + rest);
    assert (MARK_CLOSE + rest)[0] == ' ';
    NameRunOf(name, MARK_CLOSE + rest);
    assert after[|name|..] == MARK_CLOSE + rest;
    assert (MARK_CLOSE + rest)[..|MARK_CLOSE|] == MARK_CLOSE;
    assert after[..|name|] == name;
  }
}

/** JSON as RFC 8259 gives it, but for numbers with a fraction or an exponent,
    which read as no integer. */
module Json {
  import opened Wrappers

  datatype Json =
    | Null
    | Bool(b: bool)
    | Number(n: int)
    | Fraction
    | Str(s: string)
    | Arr(items: seq<Json>)
    | Obj(members: seq<(string, Json)>)

  // --- printing, as JSON.stringify does ---

  function HexDigit(k: nat): char
    requires k < 16
  {
    "0123456789abcdef"[k]
  }

  function Hex4(k: nat): string
    requires k < 0x10000
  {
    [HexDigit(k / 4096), HexDigit(k / 256 % 16), HexDigit(k / 16 % 16), HexDigit(k % 16)]
  }

  function Escape(ch: char): string {
    match ch
    case '"' => "\\\""
    case '\\' => "\\\\"
    case _ =>
      var k := ch as int;
      if k == 8 then "\\b" else if k == 9 then "\\t" else if k == 10 then "\\n" else if k == 12 then "\\f"
      else if k == 13 then "\\r" else if k < 32 then "\\u" + Hex4(k) else [ch]
  }

  function EscapeAll(s: string): string {
    if s == "" then "" else Escape(s[0]) + EscapeAll(s[1..])
  }

  function Digits(n: nat): string {
    var last := [('0' as int + n % 10) as char];
    if n < 10 then last else Digits(n / 10) + last
  }

  function ShowInt(n: int): string {
    if n < 0 then "-" + Digits(-n) else Digits(n)
  }

  /** A string or an integer: what an outcome's fields hold. */
  datatype Leaf = Text(s: string) | Count(n: int)

  function JsonOf(l: Leaf): Json {
    match l
    case Text(s) => Str(s)
    case Count(n) => Number(n)
  }

  function ShowLeaf(l: Leaf): string {
    match l
    case Text(s) => "\"" + EscapeAll(s) + "\""
    case Count(n) => ShowInt(n)
  }

  function ShowMember(m: (string, Leaf)): string {
    "\"" + EscapeAll(m.0) + "\":" + ShowLeaf(m.1)
  }

  function ShowMembers(ms: seq<(string, Leaf)>): string {
    if ms == [] then "" else if |ms| == 1 then ShowMember(ms[0]) else ShowMember(ms[0]) + "," + ShowMembers(ms[1..])
  }

  /** An object of such fields, as JSON.stringify prints it. */
  function Stringify(ms: seq<(string, Leaf)>): string {
    "{" + ShowMembers(ms) + "}"
  }

  // --- parsing, as JSON.parse does ---

  function SkipSpace(s: string): (r: string)
    ensures |r| <= |s|
  {
    if s != "" && s[0] in " \t\n\r" then SkipSpace(s[1..]) else s
  }

  function HexValue(ch: char): Option<nat> {
    if '0' <= ch <= '9' then Some(ch as int - '0' as int)
    else if 'a' <= ch <= 'f' then Some(ch as int - 'a' as int + 10)
    else if 'A' <= ch <= 'F' then Some(ch as int - 'A' as int + 10)
    else None
  }

  /** The four hexadecimal digits of an escape; a surrogate is no character. */
  function ParseHex(s: string): Option<char> {
    if |s| < 4 then None
    else
      match (HexValue(s[0]), HexValue(s[1]), HexValue(s[2]), HexValue(s[3]))
      case (Some(a), Some(b), Some(c), Some(d)) =>
        var k := a * 4096 + b * 256 + c * 16 + d;
        if k < 0xd800 || 0xe000 <= k < 0x10000 then Some(k as char) else None
      case _ => None
  }

  /** The character an escape stands for, its backslash read already. */
  function ParseEscape(s: string): (r: Option<(char, string)>)
    ensures r.Some? ==> |r.value.1| < |s|
  {
    if s == "" then None
    else
      match s[0]
      case '"' => Some(('"', s[1..]))
      case '\\' => Some(('\\', s[1..]))
      case '/' => Some(('/', s[1..]))
      case 'b' => Some((8 as char, s[1..]))
      case 'f' => Some((12 as char, s[1..]))
      case 'n' => Some(('\n', s[1..]))
      case 'r' => Some(('\r', s[1..]))
      case 't' => Some(('\t', s[1..]))
      case 'u' =>
        if ParseHex(s[1..]).Some? then Some((ParseHex(s[1..]).value, s[5..])) else None
      case _ => None
  }

  /** One character of a string, escaped or not. */
  function ParseChar(s: string): (r: Option<(char, string)>)
    ensures r.Some? ==> |r.value.1| < |s|
  {
    if s == "" || s[0] == '"' || (s[0] as int) < 32 then None
    else if s[0] == '\\' then ParseEscape(s[1..])
    else Some((s[0], s[1..]))
  }

  /** A string, its opening quote read already. */
  function ParseString(s: string): (r: Option<(string, string)>)
    ensures r.Some? ==> |r.value.1| < |s|
    decreases |s|
  {
    if s != "" && s[0] == '"' then Some(("", s[1..]))
    else
      match ParseChar(s)
      case None => None
      case Some((ch, rest)) =>
        match ParseString(rest)
        case None => None
        case Some((more, end)) => Some(([ch] + more, end))
  }

  predicate IsDigit(ch: char) {
    '0' <= ch <= '9'
  }

  function DigitRun(s: string): (n: nat)
    ensures n <= |s|
  {
    if s != "" && IsDigit(s[0]) then 1 + DigitRun(s[1..]) else 0
  }

  function NatOf(digits: string): nat
    requires forall ch | ch in digits :: IsDigit(ch)
  {
    if digits == "" then 0
    else
      assert IsDigit(digits[|digits| - 1]);
      NatOf(digits[..|digits| - 1]) * 10 + (digits[|digits| - 1] as int - '0' as int)
  }

  lemma {:induction false} RunIsDigits(s: string)
    ensures forall ch | ch in s[..DigitRun(s)] :: IsDigit(ch)
    decreases |s|
  {
    if s != "" && IsDigit(s[0]) {
      RunIsDigits(s[1..]);
      assert s[..DigitRun(s)] == [s[0]] + s[1..][..DigitRun(s[1..])];
    }
  }

  /** A number without its sign: no leading zero, and an integer unless a
      fraction or an exponent follows. */
  function ParseNumber(s: string, sign: int): (r: Option<(Json, string)>)
    ensures r.Some? ==> |r.value.1| < |s|
  {
    var n := DigitRun(s);
    if n == 0 || (n > 1 && s[0] == '0') then None
    else
      var rest := s[n..];
      if rest != "" && rest[0] in ".eE" then
        match ParseTail(rest)
        case None => None
        case Some(end) => Some((Fraction, end))
      else
        RunIsDigits(s);
        Some((Number(sign * NatOf(s[..n])), rest))
  }

  /** The fraction and the exponent of a number. */
  function ParseTail(s: string): (r: Option<string>)
    ensures r.Some? ==> |r.value| <= |s|
  {
    var fraction := if s != "" && s[0] == '.' then
      (if DigitRun(s[1..]) == 0 then None else Some(s[1..][DigitRun(s[1..])..])) else Some(s);
    match fraction
    case None => None
    case Some(t) =>
      if t == "" || !(t[0] in "eE") then Some(t)
      else
        var e := if |t| > 1 && t[1] in "+-" then t[2..] else t[1..];
        if DigitRun(e) == 0 then None else Some(e[DigitRun(e)..])
  }

  function ParseValue(s: string): (r: Option<(Json, string)>)
    ensures r.Some? ==> |r.value.1| < |s|
    decreases |s|, 0
  {
    if s == "" then None
    else if s[0] == '"' then
      match ParseString(s[1..])
      case None => None
      case Some((text, rest)) => Some((Str(text), rest))
    else if s[0] == '{' then
      var inside := SkipSpace(s[1..]);
      if inside != "" && inside[0] == '}' then Some((Obj([]), inside[1..]))
      else
        match ParseMembers(inside)
        case None => None
        case Some((ms, rest)) => Some((Obj(ms), rest))
    else if s[0] == '[' then
      var inside := SkipSpace(s[1..]);
      if inside != "" && inside[0] == ']' then Some((Arr([]), inside[1..]))
      else
        match ParseItems(inside)
        case None => None
        case Some((items, rest)) => Some((Arr(items), rest))
    else if s[0] == '-' then ParseNumber(s[1..], -1)
    else if IsDigit(s[0]) then ParseNumber(s, 1)
    else if |s| >= 4 && s[..4] == "true" then Some((Bool(true), s[4..]))
    else if |s| >= 5 && s[..5] == "false" then Some((Bool(false), s[5..]))
    else if |s| >= 4 && s[..4] == "null" then Some((Null, s[4..]))
    else None
  }

  function ParseItems(s: string): (r: Option<(seq<Json>, string)>)
    ensures r.Some? ==> |r.value.1| < |s|
    decreases |s|, 1
  {
    match ParseValue(s)
    case None => None
    case Some((item, after)) =>
      var rest := SkipSpace(after);
      if rest == "" then None
      else if rest[0] == ']' then Some(([item], rest[1..]))
      else if rest[0] == ',' then
        match ParseItems(SkipSpace(rest[1..]))
        case None => None
        case Some((more, end)) => Some(([item] + more, end))
      else None
  }

  /** A member: its name, a colon, its value. */
  function ParseMember(s: string): (r: Option<((string, Json), string)>)
    ensures r.Some? ==> |r.value.1| < |s|
    decreases |s|, 1
  {
    if s == "" || s[0] != '"' then None
    else
      match ParseString(s[1..])
      case None => None
      case Some((name, after)) =>
        var rest := SkipSpace(after);
        if rest == "" || rest[0] != ':' then None
        else
          match ParseValue(SkipSpace(rest[1..]))
          case None => None
          case Some((v, end)) => Some(((name, v), end))
  }

  function ParseMembers(s: string): (r: Option<(seq<(string, Json)>, string)>)
    ensures r.Some? ==> |r.value.1| < |s|
    decreases |s|, 2
  {
    match ParseMember(s)
    case None => None
    case Some((m, after)) =>
      var rest := SkipSpace(after);
      if rest == "" then None
      else if rest[0] == '}' then Some(([m], rest[1..]))
      else if rest[0] == ',' then
        match ParseMembers(SkipSpace(rest[1..]))
        case None => None
        case Some((more, end)) => Some(([m] + more, end))
      else None
  }

  /** A whole text, one value. */
  function Parse(text: string): Option<Json> {
    match ParseValue(SkipSpace(text))
    case None => None
    case Some((v, rest)) => if SkipSpace(rest) == "" then Some(v) else None
  }
}

/** Printing an object of strings and integers, its backticks then escaped, and
    parsing it gives it back. */
module JsonRoundTrip {
  import opened Wrappers
  import opened Json

  /** Every backtick replaced by its escape: safe in a fence, whatever it stood
      next to. */
  function NoTicks(s: string): string {
    if s == "" then "" else (if s[0] == '`' then "\\u0060" else [s[0]]) + NoTicks(s[1..])
  }

  lemma {:induction false} NoTicksHasNone(s: string)
    ensures '`' !in NoTicks(s)
  {
    if s != "" {
      NoTicksHasNone(s[1..]);
    }
  }

  lemma {:induction false} NoTicksJoins(a: string, b: string)
    ensures NoTicks(a + b) == NoTicks(a) + NoTicks(b)
  {
    if a == "" {
      assert a + b == b;
    } else {
      assert (a + b)[1..] == a[1..] + b;
      NoTicksJoins(a[1..], b);
    }
  }

  lemma {:induction false} NoTicksSame(s: string)
    requires '`' !in s
    ensures NoTicks(s) == s
  {
    if s != "" {
      NoTicksSame(s[1..]);
    }
  }

  // --- strings ---

  lemma HexBack(k: nat)
    requires k < 16
    ensures HexValue(HexDigit(k)) == Some(k) && HexDigit(k) != '`'
  {
  }

  lemma Hex4Back(k: nat, tail: string)
    requires k < 32
    ensures ParseHex(Hex4(k) + tail) == Some(k as char) && '`' !in Hex4(k)
  {
    hide HexValue, HexDigit;
    HexBack(0);
    HexBack(k / 16 % 16);
    HexBack(k % 16);
    var s := Hex4(k) + tail;
    assert s[0] == HexDigit(0) && s[1] == HexDigit(0) && s[2] == HexDigit(k / 16 % 16) && s[3] == HexDigit(k % 16);
  }

  lemma TickBack(tail: string)
    ensures ParseChar("\\u0060" + tail) == Some(('`', tail))
  {
    var s := "\\u0060" + tail;
    assert s[1..] == "u0060" + tail;
    assert s[1..][1..] == "0060" + tail;
    assert ParseHex("0060" + tail) == Some('`');
    assert s[1..][5..] == tail;
  }

  lemma PlainBack(ch: char, tail: string)
    requires ch != '"' && ch != '\\' && ch as int >= 32
    ensures ParseChar([ch] + tail) == Some((ch, tail))
  {
    assert ([ch] + tail)[1..] == tail;
  }

  lemma PairBack(x: char, ch: char, tail: string)
    requires ParseEscape([x] + tail) == Some((ch, tail))
    ensures ParseChar(['\\', x] + tail) == Some((ch, tail))
  {
    hide ParseEscape;
    assert (['\\', x] + tail)[1..] == [x] + tail;
  }

  lemma ControlBack(k: nat, tail: string)
    requires k < 32
    ensures ParseChar("\\u" + Hex4(k) + tail) == Some((k as char, tail))
  {
    hide Hex4, ParseHex;
    Hex4Back(k, tail);
    var s := "\\u" + Hex4(k) + tail;
    assert s[1..] == "u" + (Hex4(k) + tail);
    assert s[1..][1..] == Hex4(k) + tail;
    assert |Hex4(k)| == 4 by {
      Hex4Length(k);
    }
    assert s[1..][5..] == tail;
  }

  lemma Hex4Length(k: nat)
    requires k < 32
    ensures |Hex4(k)| == 4
  {
  }

  /** What each escape is. */
  lemma EscapeShapes(ch: char)
    ensures var e := Escape(ch); var k := ch as int;
      || (e == [ch] && ch != '"' && ch != '\\' && k >= 32)
      || (|e| == 2 && e[0] == '\\' && e[1] != '`' && forall tail: string :: ParseEscape([e[1]] + tail) == Some((ch, tail)))
      || (k < 32 && e == "\\u" + Hex4(k))
  {
    var e := Escape(ch);
    if |e| == 2 {
      forall tail: string
        ensures ParseEscape([e[1]] + tail) == Some((ch, tail))
      {
        assert ([e[1]] + tail)[1..] == tail;
      }
    }
  }

  /** One character, escaped, its backtick replaced, reads back as itself. */
  lemma CharBack(ch: char, tail: string)
    ensures ParseChar(NoTicks(Escape(ch)) + tail) == Some((ch, tail))
    ensures NoTicks(Escape(ch)) != "" && NoTicks(Escape(ch))[0] != '"'
  {
    hide Escape, ParseChar, ParseEscape, Hex4;
    var e := Escape(ch);
    EscapeShapes(ch);
    if ch as int < 32 {
      Hex4Length(ch as int);
    }
    if ch == '`' && e == [ch] {
      assert e[1..] == "";
      assert NoTicks(e) == "\\u0060";
      TickBack(tail);
    } else if e == [ch] {
      NoTicksSame(e);
      PlainBack(ch, tail);
    } else if |e| == 2 {
      NoTicksSame(e);
      var x := e[1];
      assert ParseEscape([x] + tail) == Some((ch, tail));
      PairBack(x, ch, tail);
      assert e == ['\\', e[1]];
    } else {
      Hex4Back(ch as int, tail);
      NoTicksSame(e);
      ControlBack(ch as int, tail);
    }
  }

  lemma {:induction false} StringBack(s: string, tail: string)
    ensures ParseString(NoTicks(EscapeAll(s)) + "\"" + tail) == Some((s, tail))
    decreases |s|
  {
    hide Escape, ParseChar;
    if s == "" {
      assert NoTicks(EscapeAll(s)) + "\"" + tail == "\"" + tail;
      assert ("\"" + tail)[1..] == tail;
    } else {
      NoTicksJoins(Escape(s[0]), EscapeAll(s[1..]));
      var rest := NoTicks(EscapeAll(s[1..])) + "\"" + tail;
      var text := NoTicks(EscapeAll(s)) + "\"" + tail;
      assert text == NoTicks(Escape(s[0])) + rest;
      CharBack(s[0], rest);
      assert text[0] == NoTicks(Escape(s[0]))[0];
      StringBack(s[1..], tail);
      assert [s[0]] + s[1..] == s;
    }
  }

  // --- integers ---

  /** A text a number can be followed by. */
  predicate EndsNumber(tail: string) {
    tail != "" && !IsDigit(tail[0]) && !(tail[0] in ".eE")
  }

  lemma {:induction false} DigitsRead(n: nat)
    ensures Digits(n) != "" && (forall ch | ch in Digits(n) :: IsDigit(ch))
    ensures NatOf(Digits(n)) == n
    ensures n > 0 ==> Digits(n)[0] != '0'
    ensures n == 0 ==> Digits(n) == "0"
    decreases n
  {
    var last := [('0' as int + n % 10) as char];
    if n >= 10 {
      DigitsRead(n / 10);
      assert Digits(n)[..|Digits(n)| - 1] == Digits(n / 10);
      assert NatOf(Digits(n)) == NatOf(Digits(n / 10)) * 10 + n % 10;
    } else {
      assert Digits(n) == last && last[..0] == "";
      assert NatOf(last) == NatOf("") * 10 + n;
    }
  }

  lemma {:induction false} RunOf(digits: string, tail: string)
    requires (forall ch | ch in digits :: IsDigit(ch)) && tail != "" && !IsDigit(tail[0])
    ensures DigitRun(digits + tail) == |digits|
    decreases |digits|
  {
    if digits == "" {
      assert digits + tail == tail;
    } else {
      assert (digits + tail)[1..] == digits[1..] + tail;
      RunOf(digits[1..], tail);
    }
  }

  lemma NumberBack(n: nat, sign: int, tail: string)
    requires EndsNumber(tail)
    ensures ParseNumber(Digits(n) + tail, sign) == Some((Number(sign * n), tail))
  {
    hide Digits, NatOf, DigitRun, ParseTail;
    var s := Digits(n) + tail;
    DigitsRead(n);
    RunOf(Digits(n), tail);
    assert s[..|Digits(n)|] == Digits(n) && s[|Digits(n)|..] == tail;
    assert s[0] == Digits(n)[0];
  }

  lemma NegativeBack(n: int, tail: string)
    requires EndsNumber(tail) && n < 0
    ensures ParseValue(ShowInt(n) + tail) == Some((Number(n), tail))
    ensures '`' !in ShowInt(n)
  {
    hide ParseNumber, Digits, NatOf;
    DigitsRead(-n);
    NumberBack(-n, -1, tail);
    assert (ShowInt(n) + tail)[1..] == Digits(-n) + tail;
  }

  lemma IntBack(n: int, tail: string)
    requires EndsNumber(tail)
    ensures ParseValue(ShowInt(n) + tail) == Some((Number(n), tail))
    ensures '`' !in ShowInt(n)
  {
    hide ParseNumber, Digits, NatOf;
    if n < 0 {
      NegativeBack(n, tail);
    } else {
      DigitsRead(n);
      NumberBack(n, 1, tail);
      assert (ShowInt(n) + tail)[0] == Digits(n)[0];
    }
  }

  // --- objects ---

  function Read(ms: seq<(string, Leaf)>): seq<(string, Json)> {
    if ms == [] then [] else [(ms[0].0, JsonOf(ms[0].1))] + Read(ms[1..])
  }

  lemma LeafBack(l: Leaf, tail: string)
    requires EndsNumber(tail)
    ensures ParseValue(NoTicks(ShowLeaf(l)) + tail) == Some((JsonOf(l), tail))
    ensures NoTicks(ShowLeaf(l)) != "" && NoTicks(ShowLeaf(l))[0] !in " \t\n\r"
  {
    hide EscapeAll, ParseString, ParseNumber, ShowInt, NoTicks;
    match l
    case Text(s) =>
      var body := EscapeAll(s);
      NoTicksJoins("\"", body);
      NoTicksJoins("\"" + body, "\"");
      NoTicksSame("\"");
      StringBack(s, tail);
      assert NoTicks(ShowLeaf(l)) == "\"" + NoTicks(body) + "\"";
      assert (NoTicks(ShowLeaf(l)) + tail)[1..] == NoTicks(body) + "\"" + tail;
    case Count(n) =>
      IntBack(n, tail);
      NoTicksSame(ShowInt(n));
      IntStarts(n);
  }

  lemma IntStarts(n: int)
    ensures ShowInt(n) != "" && ShowInt(n)[0] !in " \t\n\r"
  {
    hide Digits, NatOf;
    DigitsRead(if n < 0 then -n else n);
    assert n >= 0 ==> IsDigit(Digits(n)[0]);
  }

  lemma MemberBack(m: (string, Leaf), tail: string)
    requires EndsNumber(tail)
    ensures ParseMember(NoTicks(ShowMember(m)) + tail) == Some(((m.0, JsonOf(m.1)), tail))
    ensures NoTicks(ShowMember(m)) != "" && NoTicks(ShowMember(m))[0] == '"'
  {
    hide EscapeAll, ParseString, ParseValue, ShowLeaf, NoTicks;
    var name := EscapeAll(m.0);
    var v := ShowLeaf(m.1);
    NoTicksJoins("\"", name);
    NoTicksJoins("\"" + name, "\":");
    NoTicksJoins("\"" + name + "\":", v);
    NoTicksSame("\"");
    NoTicksSame("\":");
    var text := NoTicks(ShowMember(m)) + tail;
    assert text == "\"" + NoTicks(name) + "\":" + NoTicks(v) + tail;
    StringBack(m.0, ":" + NoTicks(v) + tail);
    assert text[1..] == NoTicks(name) + "\"" + (":" + NoTicks(v) + tail);
    assert (":" + NoTicks(v) + tail)[1..] == NoTicks(v) + tail;
    LeafBack(m.1, tail);
    assert (NoTicks(v) + tail)[0] == NoTicks(v)[0];
  }

  lemma LastMember(ms: seq<(string, Leaf)>, tail: string)
    requires |ms| == 1
    ensures ParseMembers(NoTicks(ShowMembers(ms)) + "}" + tail) == Some((Read(ms), tail))
    ensures NoTicks(ShowMembers(ms)) != "" && NoTicks(ShowMembers(ms))[0] == '"'
  {
    hide ParseMember, ShowMember, NoTicks;
    var first := NoTicks(ShowMember(ms[0]));
    MemberBack(ms[0], "}" + tail);
    assert NoTicks(ShowMembers(ms)) + "}" + tail == first + ("}" + tail);
    assert ("}" + tail)[1..] == tail;
    assert Read(ms) == [(ms[0].0, JsonOf(ms[0].1))];
  }

  lemma MembersShown(ms: seq<(string, Leaf)>)
    requires |ms| > 1
    ensures NoTicks(ShowMembers(ms)) == NoTicks(ShowMember(ms[0])) + "," + NoTicks(ShowMembers(ms[1..]))
  {
    hide ShowMember, NoTicks;
    NoTicksJoins(ShowMember(ms[0]), ",");
    NoTicksJoins(ShowMember(ms[0]) + ",", ShowMembers(ms[1..]));
    NoTicksSame(",");
  }

  lemma {:induction false} MembersBack(ms: seq<(string, Leaf)>, tail: string)
    requires ms != []
    ensures ParseMembers(NoTicks(ShowMembers(ms)) + "}" + tail) == Some((Read(ms), tail))
    ensures NoTicks(ShowMembers(ms)) != "" && NoTicks(ShowMembers(ms))[0] == '"'
    decreases |ms|
  {
    hide ParseMember, ShowMember, ShowMembers, NoTicks;
    if |ms| == 1 {
      LastMember(ms, tail);
    } else {
      var first := NoTicks(ShowMember(ms[0]));
      MembersShown(ms);
      MembersBack(ms[1..], tail);
      var more := NoTicks(ShowMembers(ms[1..])) + "}" + tail;
      MemberBack(ms[0], "," + more);
      assert NoTicks(ShowMembers(ms)) + "}" + tail == first + ("," + more);
      assert ("," + more)[1..] == more;
      assert more[0] == '"' && SkipSpace(more) == more;
    }
  }

  /** The whole object, in a fence or not. */
  lemma ObjectBack(ms: seq<(string, Leaf)>)
    requires ms != []
    ensures Parse(NoTicks(Stringify(ms))) == Some(Obj(Read(ms)))
    ensures var t := NoTicks(Stringify(ms)); t != "" && t[0] == '{' && t[|t| - 1] == '}'
  {
    hide ParseMembers, ShowMembers, NoTicks;
    var body := ShowMembers(ms);
    NoTicksJoins("{", body);
    NoTicksJoins("{" + body, "}");
    NoTicksSame("{");
    NoTicksSame("}");
    MembersBack(ms, "");
    var t := NoTicks(Stringify(ms));
    assert t == "{" + NoTicks(body) + "}";
    var inside := NoTicks(body) + "}" + "";
    assert t[1..] == inside;
    assert inside[0] == '"' && SkipSpace(inside) == inside;
    assert SkipSpace(t) == t;
  }
}

module Envelope {
  import opened Wrappers
  import opened Graph
  import opened Outcomes
  import opened Text
  import opened Json
  import opened JsonRoundTrip

  /** A routine's own name (graph/constants/routines.ts). */
  function RoutineName(run: Routine): string {
    match run
    case IssueBuildLoop => "issue-build-loop"
    case AutoReleaseLoop => "auto-release-loop"
    case IssueDiscussLoop => "issue-discuss-loop"
    case ReworkLoop => "rework-loop"
    case MergeFlow => "merge-flow"
    case ReviewLoop => "review-loop"
    case ReleasePublish => "release-publish"
  }

  function MethodName(m: MergeMethod): string {
    match m
    case Merge => "merge"
    case Squash => "squash"
    case Rebase => "rebase"
  }

  function MethodOf(s: string): Option<MergeMethod> {
    if s == "merge" then Some(Merge) else if s == "squash" then Some(Squash) else if s == "rebase" then Some(Rebase) else None
  }

  /** An outcome's fields, in the order its shape is built. */
  function Fields(o: Outcome): seq<(string, Leaf)> {
    match o
    case BuildDone(pr) => [("outcome", Text("build_succeeded")), ("pr", Count(pr))]
    case BuildStopped(reason) => [("outcome", Text("build_blocked")), ("reason", Text(reason))]
    case ReleaseStopped(reason) => [("outcome", Text("release_blocked")), ("reason", Text(reason))]
    case ReleaseOut(version, None) => [("outcome", Text("release_published")), ("version", Text(version))]
    case ReleaseOut(version, Some(tag)) =>
      [("outcome", Text("release_published")), ("version", Text(version)), ("tag", Text(tag))]
    case ReleaseReady(pr, sha, version, how) =>
      [("outcome", Text("release_approved")), ("pr", Count(pr)), ("sha", Text(sha)), ("version", Text(version)),
       ("merge_method", Text(MethodName(how)))]
    case ReviewClean => [("outcome", Text("review_passed"))]
    case ReviewFound(findings) => [("outcome", Text("review_findings")), ("findings", Count(findings))]
    case ReviewStopped(reason) => [("outcome", Text("review_blocked")), ("reason", Text(reason))]
    case ReworkNothing(reason) => [("outcome", Text("rework_no_change")), ("reason", Text(reason))]
    case MergeStopped(reason) => [("outcome", Text("merge_blocked")), ("reason", Text(reason))]
    case DiscussionFull => [("outcome", Text("discussion_capped"))]
  }

  // --- reading a shape ---

  /** A member's value: the last of its name. */
  function Member(ms: seq<(string, Json)>, name: string): Option<Json> {
    if ms == [] then None
    else if ms[|ms| - 1].0 == name then Some(ms[|ms| - 1].1)
    else Member(ms[..|ms| - 1], name)
  }

  function StrOf(ms: seq<(string, Json)>, name: string): Option<string> {
    match Member(ms, name)
    case Some(Str(s)) => Some(s)
    case _ => None
  }

  function IntOf(ms: seq<(string, Json)>, name: string): Option<int> {
    match Member(ms, name)
    case Some(Number(n)) => Some(n)
    case _ => None
  }

  function Reasoned(ms: seq<(string, Json)>, make: string -> Outcome): Option<Outcome> {
    match StrOf(ms, "reason")
    case Some(reason) => Some(make(reason))
    case None => None
  }

  function Approved(ms: seq<(string, Json)>): Option<Outcome> {
    match (IntOf(ms, "pr"), StrOf(ms, "sha"), StrOf(ms, "version"), StrOf(ms, "merge_method"))
    case (Some(pr), Some(sha), Some(version), Some(m)) =>
      (match MethodOf(m)
       case Some(how) => Some(ReleaseReady(pr, sha, version, how))
       case None => None)
    case _ => None
  }

  function Published(ms: seq<(string, Json)>): Option<Outcome> {
    match StrOf(ms, "version")
    case Some(version) => Some(ReleaseOut(version, StrOf(ms, "tag")))
    case None => None
  }

  function Counted(ms: seq<(string, Json)>, name: string, make: int -> Outcome): Option<Outcome> {
    match IntOf(ms, name)
    case Some(n) => Some(make(n))
    case None => None
  }

  /** An outcome from its fields, or nothing if they are not one's. */
  function ParseShape(j: Json): Option<Outcome> {
    match j
    case Obj(ms) =>
      (match StrOf(ms, "outcome")
       case None => None
       case Some(name) =>
         if name == "build_succeeded" then Counted(ms, "pr", n => BuildDone(n))
         else if name == "build_blocked" then Reasoned(ms, r => BuildStopped(r))
         else if name == "release_blocked" then Reasoned(ms, r => ReleaseStopped(r))
         else if name == "release_published" then Published(ms)
         else if name == "release_approved" then Approved(ms)
         else if name == "review_passed" then Some(ReviewClean)
         else if name == "review_findings" then Counted(ms, "findings", n => ReviewFound(n))
         else if name == "review_blocked" then Reasoned(ms, r => ReviewStopped(r))
         else if name == "rework_no_change" then Reasoned(ms, r => ReworkNothing(r))
         else if name == "merge_blocked" then Reasoned(ms, r => MergeStopped(r))
         else if name == "discussion_capped" then Some(DiscussionFull)
         else None)
    case _ => None
  }

  /** The comment an outcome signal stands for. */
  function Print(run: string, o: Outcome): string {
    MARK_OPEN + run + MARK_CLOSE + "\n" + "```json" + "\n" + NoTicks(Stringify(Fields(o))) + "\n" + "```"
  }

  /** The outcome a comment's body carries, if it has a marker and a block. */
  function ParseArtifact(body: string): Option<Outcome> {
    if Marker(body).None? then None
    else
      match Fenced(body)
      case None => None
      case Some(text) =>
        match Parse(text)
        case None => None
        case Some(j) => ParseShape(j)
  }

  // --- the round trip ---

  lemma OneBack(a: (string, Leaf))
    ensures Read([a]) == [(a.0, JsonOf(a.1))]
  {
  }

  lemma TwoBack(a: (string, Leaf), b: (string, Leaf))
    ensures Read([a, b]) == [(a.0, JsonOf(a.1)), (b.0, JsonOf(b.1))]
  {
    assert [a, b][1..] == [b];
    OneBack(b);
  }

  lemma MemberOfOne(a: (string, Json), name: string)
    ensures Member([a], name) == if a.0 == name then Some(a.1) else None
  {
    assert [a][..0] == [];
  }

  lemma MemberOfMore(ms: seq<(string, Json)>, a: (string, Json), name: string)
    ensures Member(ms + [a], name) == if a.0 == name then Some(a.1) else Member(ms, name)
  {
    assert (ms + [a])[..|ms|] == ms;
  }

  /** Two fields: every outcome with a reason or a count. */
  lemma PairShape(name: string, field: string, l: Leaf)
    requires field != "outcome"
    ensures var ms := Read([("outcome", Text(name)), (field, l)]);
      && StrOf(ms, "outcome") == Some(name)
      && Member(ms, field) == Some(JsonOf(l))
      && (field != "tag" ==> Member(ms, "tag") == None)
  {
    var a := ("outcome", Str(name));
    var b := (field, JsonOf(l));
    TwoBack(("outcome", Text(name)), (field, l));
    assert [a, b] == [a] + [b];
    forall x: string
      ensures Member([a, b], x) == if b.0 == x then Some(b.1) else if a.0 == x then Some(a.1) else None
    {
      MemberOfOne(a, x);
      MemberOfMore([a], b, x);
    }
  }

  lemma TaggedShape(version: string, tag: string)
    ensures ParseShape(Obj(Read(Fields(ReleaseOut(version, Some(tag)))))) == Some(ReleaseOut(version, Some(tag)))
  {
    var f := Fields(ReleaseOut(version, Some(tag)));
    var a := ("outcome", Str("release_published"));
    var b := ("version", Str(version));
    var d := ("tag", Str(tag));
    assert f[1..] == [f[1], f[2]];
    TwoBack(f[1], f[2]);
    assert Read(f) == [a] + [b] + [d];
    forall x: string
      ensures Member(Read(f), x)
        == if d.0 == x then Some(d.1) else if b.0 == x then Some(b.1) else if a.0 == x then Some(a.1) else None
    {
      MemberOfOne(a, x);
      MemberOfMore([a], b, x);
      MemberOfMore([a] + [b], d, x);
    }
  }

  lemma ApprovedShape(pr: int, sha: string, version: string, how: MergeMethod)
    ensures ParseShape(Obj(Read(Fields(ReleaseReady(pr, sha, version, how))))) == Some(ReleaseReady(pr, sha, version, how))
  {
    var f := Fields(ReleaseReady(pr, sha, version, how));
    var a := ("outcome", Str("release_approved"));
    var b := ("pr", Number(pr));
    var d := ("sha", Str(sha));
    var e := ("version", Str(version));
    var g := ("merge_method", Str(MethodName(how)));
    assert f[1..][1..][1..] == [f[3], f[4]];
    TwoBack(f[3], f[4]);
    assert Read(f[1..][1..]) == [d] + [e, g];
    assert Read(f[1..]) == [b] + [d, e, g];
    assert Read(f) == [a] + [b] + [d] + [e] + [g];
    forall x: string
      ensures Member(Read(f), x)
        == if g.0 == x then Some(g.1) else if e.0 == x then Some(e.1) else if d.0 == x then Some(d.1)
           else if b.0 == x then Some(b.1) else if a.0 == x then Some(a.1) else None
    {
      MemberOfOne(a, x);
      MemberOfMore([a], b, x);
      MemberOfMore([a] + [b], d, x);
      MemberOfMore([a] + [b] + [d], e, x);
      MemberOfMore([a] + [b] + [d] + [e], g, x);
    }
    assert MethodOf(MethodName(how)) == Some(how);
  }

  lemma LoneShape(name: string)
    ensures StrOf(Read([("outcome", Text(name))]), "outcome") == Some(name)
  {
    OneBack(("outcome", Text(name)));
    MemberOfOne(("outcome", Str(name)), "outcome");
  }

  // The outcomes that are only a reason; that count something; that say no more.

  lemma BlockedShapes(o: Outcome)
    requires o.BuildStopped? || o.ReleaseStopped? || o.ReviewStopped?
    ensures ParseShape(Obj(Read(Fields(o)))) == Some(o)
  {
    hide Member, Read;
    match o
    case BuildStopped(reason) => PairShape("build_blocked", "reason", Text(reason));
    case ReleaseStopped(reason) => PairShape("release_blocked", "reason", Text(reason));
    case ReviewStopped(reason) => PairShape("review_blocked", "reason", Text(reason));
  }

  lemma LateShapes(o: Outcome)
    requires o.ReworkNothing? || o.MergeStopped?
    ensures ParseShape(Obj(Read(Fields(o)))) == Some(o)
  {
    hide Member, Read;
    match o
    case ReworkNothing(reason) => PairShape("rework_no_change", "reason", Text(reason));
    case MergeStopped(reason) => PairShape("merge_blocked", "reason", Text(reason));
  }

  lemma CountShapes(o: Outcome)
    requires o.BuildDone? || o.ReviewFound?
    ensures ParseShape(Obj(Read(Fields(o)))) == Some(o)
  {
    hide Member, Read;
    match o
    case BuildDone(pr) => PairShape("build_succeeded", "pr", Count(pr));
    case ReviewFound(findings) => PairShape("review_findings", "findings", Count(findings));
  }

  lemma LoneShapes(o: Outcome)
    requires o.ReviewClean? || o.DiscussionFull?
    ensures ParseShape(Obj(Read(Fields(o)))) == Some(o)
  {
    hide Member, Read;
    match o
    case ReviewClean => LoneShape("review_passed");
    case DiscussionFull => LoneShape("discussion_capped");
  }

  lemma UntaggedShape(version: string)
    ensures ParseShape(Obj(Read(Fields(ReleaseOut(version, None))))) == Some(ReleaseOut(version, None))
  {
    hide Member, Read;
    PairShape("release_published", "version", Text(version));
  }

  /** Every outcome's fields are a shape the catalog knows, and that outcome's. */
  lemma ShapeBack(o: Outcome)
    ensures ParseShape(Obj(Read(Fields(o)))) == Some(o)
  {
    hide ParseShape, Read, Fields;
    match o
    case ReleaseOut(version, None) => UntaggedShape(version);
    case ReleaseOut(version, Some(tag)) => TaggedShape(version, tag);
    case ReleaseReady(pr, sha, version, how) => ApprovedShape(pr, sha, version, how);
    case BuildDone(_) => CountShapes(o);
    case ReviewFound(_) => CountShapes(o);
    case ReviewClean => LoneShapes(o);
    case DiscussionFull => LoneShapes(o);
    case ReworkNothing(_) => LateShapes(o);
    case MergeStopped(_) => LateShapes(o);
    case _ => BlockedShapes(o);
  }

  lemma NamesAreNames(run: Routine)
    ensures IsName(RoutineName(run))
  {
    var name := RoutineName(run);
    forall j | 0 <= j < |name|
      ensures NameChar(name[j])
    {
    }
  }

  lemma NamesHaveNoTick(s: string)
    requires IsName(s)
    ensures '`' !in MARK_OPEN + s + MARK_CLOSE + "\n"
  {
  }

  /** The comment printed for any outcome, whatever backticks, quotes,
      backslashes and newlines its text holds, reads back as that outcome, and
      its marker as that routine. */
  lemma EnvelopeRoundTrip(run: Routine, o: Outcome)
    ensures ParseArtifact(Print(RoutineName(run), o)) == Some(o)
    ensures Marker(Print(RoutineName(run), o)) == Some(RoutineName(run))
  {
    hide RoutineName, Fields, ParseShape, Fenced, Marker, Parse, Stringify, IsName, NoTicks;
    var name := RoutineName(run);
    var text := NoTicks(Stringify(Fields(o)));
    var body := Print(name, o);
    NamesAreNames(run);
    NamesHaveNoTick(name);
    FieldsAreSome(o);
    ObjectBack(Fields(o));
    NoTicksHasNone(Stringify(Fields(o)));
    assert body == MARK_OPEN + name + MARK_CLOSE + ("\n" + "```json" + "\n" + text + "\n" + "```");
    MarkerOf(name, "\n" + "```json" + "\n" + text + "\n" + "```");
    assert body == (MARK_OPEN + name + MARK_CLOSE + "\n") + "```json" + "\n" + text + "\n" + "```";
    FencedHolds(MARK_OPEN + name + MARK_CLOSE + "\n", text);
    ShapeBack(o);
  }

  lemma FieldsAreSome(o: Outcome)
    ensures Fields(o) != []
  {
  }
}
