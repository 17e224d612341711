/** Paths that git quotes: the bytes of a name in UTF-8, some of them escaped as in C, between double quotes. */
module QuotedPaths {
  import opened Prelude
  import opened UnifiedDiff
  import opened PatchManifest
  import opened GitManifest

  type Byte = b: int | 0 <= b < 256

  // ---- UTF-8 ----

  function EncodeChar(c: char): (bytes: seq<Byte>)
    ensures 1 <= |bytes| <= 4
  {
    var x := c as int;
    if x < 0x80 then [x]
    else if x < 0x800 then [0xC0 + x / 0x40, 0x80 + x % 0x40]
    else if x < 0x10000 then [0xE0 + x / 0x1000, 0x80 + x / 0x40 % 0x40, 0x80 + x % 0x40]
    else [0xF0 + x / 0x40000, 0x80 + x / 0x1000 % 0x40, 0x80 + x / 0x40 % 0x40, 0x80 + x % 0x40]
  }

  function Encode(s: string): seq<Byte> {
    if s == [] then [] else EncodeChar(s[0]) + Encode(s[1..])
  }

  predicate IsScalar(x: int) {
    0 <= x < 0xD800 || 0xE000 <= x < 0x110000
  }

  predicate IsMore(b: Byte) {
    0x80 <= b < 0xC0
  }

  /** What a byte holds besides its mark. */
  function Held(b: Byte, mark: int): int {
    b - mark
  }

  function Held2(bytes: seq<Byte>): int
    requires |bytes| > 1
  {
    Held(bytes[0], 0xC0) * 0x40 + Held(bytes[1], 0x80)
  }

  function Held3(bytes: seq<Byte>): int
    requires |bytes| > 2
  {
    Held(bytes[0], 0xE0) * 0x1000 + Held(bytes[1], 0x80) * 0x40 + Held(bytes[2], 0x80)
  }

  function Held4(bytes: seq<Byte>): int
    requires |bytes| > 3
  {
    Held(bytes[0], 0xF0) * 0x40000 + Held(bytes[1], 0x80) * 0x1000 + Held(bytes[2], 0x80) * 0x40 + Held(bytes[3], 0x80)
  }

  /** The character that some bytes begin with, and how many of them it takes: none is longer than it must be. */
  function DecodeFirst(bytes: seq<Byte>): (first: Option<(char, nat)>)
    ensures first.Some? ==> 1 <= first.value.1 <= |bytes|
  {
    if bytes == [] then None
    else if bytes[0] < 0x80 then Some((bytes[0] as char, 1))
    else if 0xC0 <= bytes[0] < 0xE0 && |bytes| > 1 && IsMore(bytes[1]) then
      if Held2(bytes) >= 0x80 then Some((Held2(bytes) as char, 2)) else None
    else if 0xE0 <= bytes[0] < 0xF0 && |bytes| > 2 && IsMore(bytes[1]) && IsMore(bytes[2]) then
      if Held3(bytes) >= 0x800 && IsScalar(Held3(bytes)) then Some((Held3(bytes) as char, 3)) else None
    else if 0xF0 <= bytes[0] < 0xF8 && |bytes| > 3 && IsMore(bytes[1]) && IsMore(bytes[2]) && IsMore(bytes[3]) then
      if Held4(bytes) >= 0x10000 && IsScalar(Held4(bytes)) then Some((Held4(bytes) as char, 4)) else None
    else None
  }

  function Decode(bytes: seq<Byte>): Result<string> {
    if bytes == [] then Ok("")
    else match DecodeFirst(bytes)
      case None => Err
      case Some((c, n)) =>
        match Decode(bytes[n..])
        case Err => Err
        case Ok(rest) => Ok([c] + rest)
  }

  /** The base-64 digits of a number, and the number of some digits. */
  lemma Digits(x: int, a: int, b: int, c: int, d: int)
    requires 0 <= a && 0 <= b < 64 && 0 <= c < 64 && 0 <= d < 64 && x == ((a * 64 + b) * 64 + c) * 64 + d
    ensures x % 0x40 == d && x / 0x40 % 0x40 == c && x / 0x1000 % 0x40 == b && x / 0x40000 == a
    ensures x / 0x1000 == a * 64 + b && x / 0x40 == (a * 64 + b) * 64 + c
  {
    var y := (a * 64 + b) * 64 + c;
    assert x / 0x40 == y;
    assert x / 0x1000 == y / 0x40 == a * 64 + b;
    assert x / 0x40000 == (a * 64 + b) / 0x40 == a;
  }

  lemma DigitsOf(x: int) returns (a: int, b: int, c: int, d: int)
    requires 0 <= x
    ensures 0 <= a && 0 <= b < 64 && 0 <= c < 64 && 0 <= d < 64 && x == ((a * 64 + b) * 64 + c) * 64 + d
  {
    var y := x / 0x40;
    var z := y / 0x40;
    a, b, c, d := z / 0x40, z % 0x40, y % 0x40, x % 0x40;
  }

  lemma EncodedDigits(c: char) returns (d: int, e: int, f: int, g: int)
    ensures 0 <= d && 0 <= e < 64 && 0 <= f < 64 && 0 <= g < 64 && c as int == ((d * 64 + e) * 64 + f) * 64 + g
    ensures EncodeChar(c) ==
            if c as int < 0x80 then [c as int]
            else if c as int < 0x800 then [0xC0 + f, 0x80 + g]
            else if c as int < 0x10000 then [0xE0 + e, 0x80 + f, 0x80 + g]
            else [0xF0 + d, 0x80 + e, 0x80 + f, 0x80 + g]
  {
    d, e, f, g := DigitsOf(c as int);
    Digits(c as int, d, e, f, g);
  }

  lemma FirstOfEncoded(c: char, rest: seq<Byte>)
    ensures DecodeFirst(EncodeChar(c) + rest) == Some((c, |EncodeChar(c)|))
  {
    hide EncodeChar;
    var d, e, f, g := EncodedDigits(c);
    if c as int >= 0x10000 {
      FirstOfFour(c, [0xF0 + d, 0x80 + e, 0x80 + f, 0x80 + g] + rest);
    } else if c as int >= 0x800 {
      FirstOfThree(c, [0xE0 + e, 0x80 + f, 0x80 + g] + rest);
    } else if c as int >= 0x80 {
      FirstOfTwo(c, [0xC0 + f, 0x80 + g] + rest);
    }
  }

  lemma FirstOfFour(c: char, bytes: seq<Byte>)
    requires c as int >= 0x10000 && |bytes| > 3 && 0xF0 <= bytes[0] < 0xF8 && Held4(bytes) == c as int
    requires IsMore(bytes[1]) && IsMore(bytes[2]) && IsMore(bytes[3])
    ensures DecodeFirst(bytes) == Some((c, 4))
  {
    hide Held4;
  }

  lemma FirstOfTwo(c: char, bytes: seq<Byte>)
    requires c as int >= 0x80 && |bytes| > 1 && 0xC0 <= bytes[0] < 0xE0 && IsMore(bytes[1]) && Held2(bytes) == c as int
    ensures DecodeFirst(bytes) == Some((c, 2))
  {
    hide Held2, Held3, Held4;
  }

  lemma FirstOfThree(c: char, bytes: seq<Byte>)
    requires c as int >= 0x800 && |bytes| > 2 && 0xE0 <= bytes[0] < 0xF0 && Held3(bytes) == c as int
    requires IsMore(bytes[1]) && IsMore(bytes[2])
    ensures DecodeFirst(bytes) == Some((c, 3))
  {
    hide Held3, Held4;
  }

  /** A character is read from no bytes but its own. */
  lemma FirstIsEncoded(bytes: seq<Byte>)
    requires DecodeFirst(bytes).Some?
    ensures var (c, n) := DecodeFirst(bytes).value; EncodeChar(c) == bytes[..n]
  {
    var (c, n) := DecodeFirst(bytes).value;
    if n == 4 {
      Digits(c as int, Held(bytes[0], 0xF0), Held(bytes[1], 0x80), Held(bytes[2], 0x80), Held(bytes[3], 0x80));
      assert bytes[..4] == [bytes[0], bytes[1], bytes[2], bytes[3]];
    } else if n == 3 {
      Digits(c as int, 0, Held(bytes[0], 0xE0), Held(bytes[1], 0x80), Held(bytes[2], 0x80));
      assert bytes[..3] == [bytes[0], bytes[1], bytes[2]];
    } else if n == 2 {
      Digits(c as int, 0, 0, Held(bytes[0], 0xC0), Held(bytes[1], 0x80));
      assert bytes[..2] == [bytes[0], bytes[1]];
    } else {
      assert bytes[..1] == [bytes[0]];
    }
  }

  lemma {:induction false} DecodeUndoesEncode(s: string)
    ensures Decode(Encode(s)) == Ok(s)
    decreases |s|
  {
    if s != [] {
      var first, rest := EncodeChar(s[0]), Encode(s[1..]);
      hide EncodeChar, DecodeFirst;
      FirstOfEncoded(s[0], rest);
      DecodeUndoesEncode(s[1..]);
      assert (first + rest)[|first|..] == rest;
      assert [s[0]] + s[1..] == s;
    }
  }

  /** Only the encoding of a text decodes to it. */
  lemma {:induction false} EncodeUndoesDecode(bytes: seq<Byte>)
    ensures Decode(bytes).Ok? ==> Encode(Decode(bytes).value) == bytes
    decreases |bytes|
  {
    hide EncodeChar, DecodeFirst;
    if bytes != [] && Decode(bytes).Ok? {
      var (c, n) := DecodeFirst(bytes).value;
      FirstIsEncoded(bytes);
      EncodeUndoesDecode(bytes[n..]);
      var rest := Decode(bytes[n..]).value;
      assert ([c] + rest)[1..] == rest;
      assert bytes[..n] + bytes[n..] == bytes;
    }
  }

  // ---- unquoting ----

  predicate IsOctal(c: char) {
    '0' <= c <= '7'
  }

  /** The byte a letter after a backslash stands for. */
  function Escape(letter: char): Option<Byte> {
    match letter
    case 'a' => Some(7)
    case 'b' => Some(8)
    case 't' => Some(9)
    case 'n' => Some(10)
    case 'v' => Some(11)
    case 'f' => Some(12)
    case 'r' => Some(13)
    case '"' => Some(34)
    case '\\' => Some(92)
    case _ => None
  }

  predicate IsOctalEscape(s: string) {
    |s| >= 4 && s[0] == '\\' && '0' <= s[1] <= '3' && IsOctal(s[2]) && IsOctal(s[3])
  }

  function OctalValue(s: string): Byte
    requires IsOctalEscape(s)
  {
    (s[1] as int - '0' as int) * 64 + (s[2] as int - '0' as int) * 8 + (s[3] as int - '0' as int)
  }

  function Prepend(bytes: seq<Byte>, rest: Result<seq<Byte>>): Result<seq<Byte>> {
    match rest
    case Err => Err
    case Ok(more) => Ok(bytes + more)
  }

  /** The bytes that escaped text stands for; none when git never writes one of the escapes. */
  function BytesOf(text: string): Result<seq<Byte>> {
    if text == [] then Ok([])
    else if text[0] != '\\' then Prepend(EncodeChar(text[0]), BytesOf(text[1..]))
    else if IsOctalEscape(text) then Prepend([OctalValue(text)], BytesOf(text[4..]))
    else if |text| > 1 && Escape(text[1]).Some? then Prepend([Escape(text[1]).value], BytesOf(text[2..]))
    else Err
  }

  /** The name a quoted path stands for. */
  function Unescape(raw: string): Result<string>
    requires |raw| >= 2
  {
    match BytesOf(raw[1..|raw| - 1])
    case Err => Err
    case Ok(bytes) => Decode(bytes)
  }

  function Unescaper(): Decoder {
    (raw: string) => if |raw| >= 2 then Unescape(raw) else Err
  }

  lemma {:induction false} BytesOfRun(run: string, rest: string)
    requires Lacks(run, '\\')
    ensures BytesOf(run + rest) == Prepend(Encode(run), BytesOf(rest))
    decreases |run|
  {
    hide EncodeChar, Prepend;
    if run == [] {
      assert run + rest == rest;
      PrependNothing(BytesOf(rest));
    } else {
      BytesOfRun(run[1..], rest);
      assert (run + rest)[0] == run[0] && (run + rest)[1..] == run[1..] + rest;
      PrependTwice(EncodeChar(run[0]), Encode(run[1..]), BytesOf(rest));
    }
  }

  /** The end of the run of characters that are no backslash. */
  method RunEnd(text: string, i: nat) returns (j: nat)
    requires i < |text| && text[i] != '\\'
    ensures i < j <= |text| && Lacks(text[i..j], '\\')
  {
    j := i + 1;
    while j < |text| && text[j] != '\\'
      invariant i < j <= |text| && forall k | i <= k < j :: text[k] != '\\'
    {
      j := j + 1;
    }
  }

  /** Decode a path as a header gives it: piece by piece when it is quoted, and not at all otherwise. */
  method UnquotePath(raw: string) returns (name: Result<string>)
    ensures name == Unquote(raw, Unescaper())
  {
    if |raw| < 2 || raw[0] != '"' || raw[|raw| - 1] != '"' {
      return Ok(raw);
    }
    var text := raw[1..|raw| - 1];
    var bytes: seq<Byte> := [];
    var i := 0;
    assert text[0..] == text;
    PrependNothing(BytesOf(text));
    hide BytesOf, Prepend, IsOctalEscape, OctalValue, Escape, Encode;
    while i < |text|
      invariant 0 <= i <= |text| && BytesOf(text) == Prepend(bytes, BytesOf(text[i..]))
    {
      var rest := text[i..];
      if text[i] != '\\' {
        var j := RunEnd(text, i);
        assert rest == text[i..j] + text[j..];
        BytesOfRun(text[i..j], text[j..]);
        PrependTwice(bytes, Encode(text[i..j]), BytesOf(text[j..]));
        bytes, i := bytes + Encode(text[i..j]), j;
      } else if IsOctalEscape(rest) {
        BytesOfEscape(rest);
        PrependTwice(bytes, [OctalValue(rest)], BytesOf(rest[4..]));
        assert rest[4..] == text[i + 4..];
        bytes, i := bytes + [OctalValue(rest)], i + 4;
      } else if |rest| > 1 && Escape(rest[1]).Some? {
        BytesOfEscape(rest);
        PrependTwice(bytes, [Escape(rest[1]).value], BytesOf(rest[2..]));
        assert rest[2..] == text[i + 2..];
        bytes, i := bytes + [Escape(rest[1]).value], i + 2;
      } else {
        BytesOfEscape(rest);
        NoBytes(bytes);
        return Err;
      }
    }
    AllBytes(bytes, text[i..]);
    name := Decode(bytes);
  }

  lemma BytesOfEscape(rest: string)
    requires rest != [] && rest[0] == '\\'
    ensures IsOctalEscape(rest) ==> |rest| >= 4 && BytesOf(rest) == Prepend([OctalValue(rest)], BytesOf(rest[4..]))
    ensures !IsOctalEscape(rest) ==>
              if |rest| > 1 && Escape(rest[1]).Some? then BytesOf(rest) ==
                Prepend([Escape(rest[1]).value], BytesOf(rest[2..]))
              else BytesOf(rest) == Err
  {
    hide Prepend, Escape, OctalValue;
  }

  lemma NoBytes(bytes: seq<Byte>)
    ensures Prepend(bytes, Err) == Err
  {
  }

  lemma AllBytes(bytes: seq<Byte>, rest: string)
    requires rest == []
    ensures Prepend(bytes, BytesOf(rest)) == Ok(bytes)
  {
    assert bytes + [] == bytes;
  }

  // ---- quoting ----

  function Octal(b: Byte): string {
    ['\\', ('0' as int + b / 64) as char, ('0' as int + b / 8 % 8) as char, ('0' as int + b % 8) as char]
  }

  function OctalAll(bytes: seq<Byte>): string {
    if bytes == [] then [] else Octal(bytes[0]) + OctalAll(bytes[1..])
  }

  /** The letter that stands for a character after a backslash. */
  function Letter(c: char): Option<char> {
    match c as int
    case 7 => Some('a')
    case 8 => Some('b')
    case 9 => Some('t')
    case 10 => Some('n')
    case 11 => Some('v')
    case 12 => Some('f')
    case 13 => Some('r')
    case 34 => Some('"')
    case 92 => Some('\\')
    case _ => None
  }

  /** How git writes one character of a quoted path; those beyond ASCII are escaped or not, as it is set. */
  function QuoteChar(c: char, fully: bool): string {
    if Letter(c).Some? then ['\\', Letter(c).value]
    else if c as int < 0x20 || c as int == 0x7F then Octal(c as int)
    else if c as int >= 0x80 && fully then OctalAll(EncodeChar(c))
    else [c]
  }

  function QuoteText(s: string, fully: bool): string {
    if s == [] then [] else QuoteChar(s[0], fully) + QuoteText(s[1..], fully)
  }

  lemma OctalReads(b: Byte, rest: string)
    ensures IsOctalEscape(Octal(b) + rest) && OctalValue(Octal(b) + rest) == b && (Octal(b) + rest)[4..] == rest
  {
    assert b == b / 64 * 64 + b / 8 % 8 * 8 + b % 8;
  }

  lemma OctalFirst(bytes: seq<Byte>, rest: string)
    requires bytes != []
    ensures var more := OctalAll(bytes[1..]) + rest;
            && OctalAll(bytes) + rest == Octal(bytes[0]) + more
            && BytesOf(Octal(bytes[0]) + more) == Prepend([bytes[0]], BytesOf(more))
  {
    var more := OctalAll(bytes[1..]) + rest;
    OctalReads(bytes[0], more);
    OctalIsEscape(bytes[0], more);
    hide Octal, IsOctalEscape, OctalValue, Prepend, EncodeChar;
  }

  lemma {:induction false} OctalAllReads(bytes: seq<Byte>, rest: string)
    ensures BytesOf(OctalAll(bytes) + rest) == Prepend(bytes, BytesOf(rest))
    decreases |bytes|
  {
    hide Octal, Prepend, BytesOf;
    if bytes == [] {
      assert OctalAll(bytes) + rest == rest;
      PrependNothing(BytesOf(rest));
    } else {
      OctalFirst(bytes, rest);
      OctalAllReads(bytes[1..], rest);
      PrependTwice([bytes[0]], bytes[1..], BytesOf(rest));
      assert [bytes[0]] + bytes[1..] == bytes;
    }
  }

  lemma OctalIsEscape(b: Byte, rest: string)
    ensures Octal(b) + rest != [] && (Octal(b) + rest)[0] == '\\'
  {
  }

  lemma PrependNothing(rest: Result<seq<Byte>>)
    ensures Prepend([], rest) == rest
  {
    if rest.Ok? { assert [] + rest.value == rest.value; }
  }

  lemma PrependTwice(a: seq<Byte>, b: seq<Byte>, rest: Result<seq<Byte>>)
    ensures Prepend(a, Prepend(b, rest)) == Prepend(a + b, rest)
  {
    if rest.Ok? { assert a + (b + rest.value) == a + b + rest.value; }
  }

  lemma LetterReads(c: char)
    ensures Letter(c).Some? ==> Escape(Letter(c).value) == Some(c as int) && EncodeChar(c) == [c as int]
    ensures Letter(c).Some? ==> !('0' <= Letter(c).value <= '3')
    ensures Letter(c).None? ==> c != '\\' && c != '"'
  {
  }

  lemma CharReads(c: char, fully: bool, rest: string)
    ensures BytesOf(QuoteChar(c, fully) + rest) == Prepend(EncodeChar(c), BytesOf(rest))
  {
    LetterReads(c);
    var text := QuoteChar(c, fully) + rest;
    if Letter(c).Some? {
      assert text[0] == '\\' && text[1] == Letter(c).value && text[2..] == rest;
      hide Letter, Escape, EncodeChar;
    } else if c as int < 0x20 || c as int == 0x7F {
      assert OctalAll([c as int]) == Octal(c as int) + [] == Octal(c as int);
      OctalAllReads([c as int], rest);
    } else if c as int >= 0x80 && fully {
      OctalAllReads(EncodeChar(c), rest);
    } else {
      assert text[0] == c && text[1..] == rest;
      hide Letter, Escape, EncodeChar;
    }
  }

  lemma {:induction false} BytesOfQuoted(s: string, fully: bool)
    ensures BytesOf(QuoteText(s, fully)) == Ok(Encode(s))
    decreases |s|
  {
    if s != [] {
      hide QuoteChar, EncodeChar, BytesOf;
      CharReads(s[0], fully, QuoteText(s[1..], fully));
      BytesOfQuoted(s[1..], fully);
    } else {
      assert QuoteText(s, fully) == [];
    }
  }

  /** Unquoting undoes quoting, for every name and either setting. */
  lemma UnquoteUndoesQuote(s: string, fully: bool)
    ensures Unescape("\"" + QuoteText(s, fully) + "\"") == Ok(s)
  {
    hide QuoteText, BytesOf, Encode, Decode;
    var text := QuoteText(s, fully);
    var raw := "\"" + text + "\"";
    assert raw[1..|raw| - 1] == text;
    BytesOfQuoted(s, fully);
    DecodeUndoesEncode(s);
  }

  // ---- the names that git prints for paths ----

  predicate NeedsQuotes(path: string, fully: bool) {
    exists i :: 0 <= i < |path| && QuoteChar(path[i], fully) != [path[i]]
  }

  /** How git prints a path: as it is, or quoted when one of its characters must be escaped. */
  function NameOf(path: string, fully: bool): Name {
    if NeedsQuotes(path, fully) then Quoted(QuoteText(path, fully)) else Bare(path)
  }

  lemma PlainChar(c: char, fully: bool)
    requires QuoteChar(c, fully) == [c]
    ensures c != '\t' && c != '"' && (IsSpace(c) ==> c == ' ')
  {
  }

  lemma QuotedChar(c: char, fully: bool, rest: string)
    requires Escaped(rest) && Lacks(rest, '\t')
    ensures Escaped(QuoteChar(c, fully) + rest) && Lacks(QuoteChar(c, fully) + rest, '\t')
  {
    LetterReads(c);
    var text := QuoteChar(c, fully) + rest;
    if Letter(c).Some? {
      assert text[2..] == rest && Letter(c).value != '\t';
    } else if c as int < 0x20 || c as int == 0x7F {
      assert OctalAll([c as int]) == Octal(c as int) + [] == Octal(c as int);
      OctalsAreEscaped([c as int], rest);
    } else if c as int >= 0x80 && fully {
      OctalsAreEscaped(EncodeChar(c), rest);
    } else {
      assert text[1..] == rest;
    }
  }

  lemma OctalIsEscaped(b: Byte, rest: string)
    requires Escaped(rest) && Lacks(rest, '\t')
    ensures Escaped(Octal(b) + rest) && Lacks(Octal(b) + rest, '\t')
  {
    var text := Octal(b) + rest;
    assert text[4..] == rest && text[3..][1..] == rest && text[2..][1..] == text[3..];
    assert Escaped(text[3..]) && Escaped(text[2..]);
  }

  lemma {:induction false} OctalsAreEscaped(bytes: seq<Byte>, rest: string)
    requires Escaped(rest) && Lacks(rest, '\t')
    ensures Escaped(OctalAll(bytes) + rest) && Lacks(OctalAll(bytes) + rest, '\t')
    decreases |bytes|
  {
    hide Octal, Escaped, Lacks;
    if bytes == [] {
      assert OctalAll(bytes) + rest == rest;
    } else {
      OctalsAreEscaped(bytes[1..], rest);
      OctalIsEscaped(bytes[0], OctalAll(bytes[1..]) + rest);
      assert OctalAll(bytes) + rest == Octal(bytes[0]) + (OctalAll(bytes[1..]) + rest);
    }
  }

  lemma {:induction false} QuotedIsEscaped(path: string, fully: bool)
    ensures Escaped(QuoteText(path, fully)) && Lacks(QuoteText(path, fully), '\t')
    decreases |path|
  {
    if path != [] {
      hide QuoteChar, Escaped, Lacks;
      QuotedIsEscaped(path[1..], fully);
      QuotedChar(path[0], fully, QuoteText(path[1..], fully));
    }
  }

  lemma QuotedIsSome(path: string, fully: bool)
    requires path != ""
    ensures QuoteText(path, fully) != ""
  {
    assert OctalAll(EncodeChar(path[0])) != [];
  }

  lemma NameIsPrintable(path: string, fully: bool)
    requires path != ""
    ensures Printable(NameOf(path, fully))
  {
    if NeedsQuotes(path, fully) {
      QuotedIsEscaped(path, fully);
      QuotedIsSome(path, fully);
      hide QuoteText, Escaped, NeedsQuotes;
    } else {
      forall i | 0 <= i < |path| ensures path[i] != '\t' && path[i] != '"' && (IsSpace(path[i]) ==> path[i] == ' ') {
        PlainChar(path[i], fully);
      }
      hide QuoteChar;
    }
  }

  lemma {:induction false} EncodeConcat(a: string, b: string)
    ensures Encode(a + b) == Encode(a) + Encode(b)
    decreases |a|
  {
    hide EncodeChar;
    if a == [] {
      assert a + b == b;
    } else {
      EncodeConcat(a[1..], b);
      assert (a + b)[1..] == a[1..] + b;
    }
  }

  /** A quoted name under a prefix decodes to the path under that prefix. */
  lemma PrefixedUndoesQuote(prefix: string, path: string, fully: bool)
    requires Lacks(prefix, '\\')
    ensures Unescape(Token(prefix, Quoted(QuoteText(path, fully)))) == Ok(prefix + path)
  {
    hide QuoteText, BytesOf, Encode, Decode, Lacks;
    var text, raw := prefix + QuoteText(path, fully), Token(prefix, Quoted(QuoteText(path, fully)));
    assert raw[1..|raw| - 1] == text;
    BytesOfRun(prefix, QuoteText(path, fully));
    BytesOfQuoted(path, fully);
    EncodeConcat(prefix, path);
    DecodeUndoesEncode(prefix + path);
  }

  /** Every path that git prints, under any prefix and either setting, is printable and read back as it was. */
  lemma PathIsReadBack(prefix: string, path: string, fully: bool)
    requires Prefix(prefix) && path != ""
    ensures Printable(NameOf(path, fully))
    ensures Unquote(Token(prefix, NameOf(path, fully)), Unescaper()) == Ok(prefix + path)
  {
    NameIsPrintable(path, fully);
    PrefixLacks(prefix);
    TokenLacks(prefix, NameOf(path, fully));
    TokenIsSome(prefix, NameOf(path, fully));
    PrefixedUndoesQuote(prefix, path, fully);
    hide Prefix, Printable, NeedsQuotes, Unescape, QuoteText;
  }

  /** A patch of real paths: what it intends names them under their prefixes. */
  lemma PathsAreIntended(g: GitPatch, path: string, after: string, fully: bool)
    requires Prefix(g.was) && Prefix(g.now) && path != "" && after != ""
    requires g.name == NameOf(path, fully) && NameAfter(g) == NameOf(after, fully)
    ensures GitIntended(g, Unescaper()) ==
            var mode := ModeOf(g.change);
            match g.change
            case Edit(_) => Ok([Target(Write, g.now + after, mode, false)])
            case Create(_) => Ok([Target(Write, g.now + after, mode, true)])
            case Remove(_) => Ok([Target(Delete, (if g.body.Some? then g.was else g.now) + path, "", false)])
            case Rename(_, _, _) => Ok([Target(Delete, g.was + path, "", false),
              Target(Write, g.now + after, mode, true)])
            case Copy(_, _, _) => Ok([Target(Write, g.now + after, mode, true)])
  {
    hide Prefix, Unquote, Unescaper, NameOf, Token, ModeOf;
    PathIsReadBack(g.was, path, fully);
    PathIsReadBack(g.now, after, fully);
    if g.change.Remove? { PathIsReadBack(g.now, path, fully); }
    assert forall a: Target, b: Target :: [a] + [b] == [a, b];
  }
}
