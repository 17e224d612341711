/** The manifest of a diff that git prints, with `diff --git` lines: what its sections intend, read from their
  * headers. */
module GitManifest {
  import opened Prelude
  import opened UnifiedDiff
  import opened PatchManifest

  // ---- the headers of a section ----

  datatype Word =
    | DiffGit | OldMode | NewMode | NewFileMode | DeletedFileMode
    | Similarity | RenameFrom | RenameTo | CopyFrom | CopyTo | Index

  datatype Header = Header(word: Word, value: string)

  function Text(word: Word): string {
    match word
    case DiffGit => GIT_FILE
    case OldMode => "old mode "
    case NewMode => "new mode "
    case NewFileMode => "new file mode "
    case DeletedFileMode => "deleted file mode "
    case Similarity => "similarity index "
    case RenameFrom => "rename from "
    case RenameTo => "rename to "
    case CopyFrom => "copy from "
    case CopyTo => "copy to "
    case Index => "index "
  }

  function PrintHeader(h: Header): Line {
    Text(h.word) + h.value
  }

  function PrintHeaders(headers: seq<Header>): seq<Line> {
    if headers == [] then [] else [PrintHeader(headers[0])] + PrintHeaders(headers[1..])
  }

  lemma Differs(line: Line, marker: string, i: nat)
    requires i < |line| && i < |marker| && line[i] != marker[i]
    ensures !StartsWith(line, marker)
  {
    assert |marker| <= |line| ==> line[..|marker|][i] == line[i];
  }

  /** Where two words part. */
  function Parting(a: Word, b: Word): nat {
    if Text(a)[0] != Text(b)[0] then 0
    else match a
      case DiffGit | DeletedFileMode => 1
      case NewMode | NewFileMode => 4
      case CopyFrom | CopyTo => 5
      case _ => 7
  }

  lemma WordsPart(a: Word, b: Word)
    requires a != b
    ensures Parting(a, b) < |Text(a)| && Parting(a, b) < |Text(b)| && Text(a)[Parting(a, b)] != Text(b)[Parting(a, b)]
  {
  }

  lemma OtherWord(h: Header, word: Word)
    requires h.word != word
    ensures !StartsWith(PrintHeader(h), Text(word))
  {
    hide StartsWith, Text, Parting;
    WordsPart(h.word, word);
    Differs(PrintHeader(h), Text(word), Parting(h.word, word));
  }

  /** Where one value stands for a word, it is read. */
  lemma {:induction false} ValueIs(headers: seq<Header>, word: Word, value: string)
    requires Header(word, value) in headers && value != "" &&
             forall h | h in headers && h.word == word :: h.value == value
    ensures FirstAfter(PrintHeaders(headers), Text(word)) == Some(value)
    ensures DigitSpan(value) == |value| ==> ModeAfter(PrintHeaders(headers), Text(word)) == Some(value)
    decreases |headers|
  {
    hide StartsWith, Text, DigitSpan, PrintHeader;
    var h, lines := headers[0], PrintHeaders(headers);
    assert h in headers && lines[1..] == PrintHeaders(headers[1..]);
    if h.word == word {
      PrintedValue(h);
    } else {
      OtherWord(h, word);
      ValueIs(headers[1..], word, value);
    }
  }

  lemma PrintedValue(h: Header)
    ensures var line, word := PrintHeader(h), Text(h.word);
            StartsWith(line, word) && |line| == |word| + |h.value| && line[|word|..] == h.value
  {
    StartOf(Text(h.word), h.value);
  }

  lemma {:induction false} NoValue(headers: seq<Header>, word: Word)
    requires forall h | h in headers :: h.word != word
    ensures FirstAfter(PrintHeaders(headers), Text(word)) == None &&
            ModeAfter(PrintHeaders(headers), Text(word)) == None
    decreases |headers|
  {
    hide StartsWith, Text, DigitSpan, PrintHeader;
    if headers != [] {
      var lines := PrintHeaders(headers);
      assert headers[0] in headers && lines[1..] == PrintHeaders(headers[1..]);
      OtherWord(headers[0], word);
      NoValue(headers[1..], word);
    }
  }

  lemma {:induction false} FirstInConcat(a: seq<Line>, b: seq<Line>, marker: string)
    ensures FirstAfter(a + b, marker) == if FirstAfter(a, marker).Some? then FirstAfter(a, marker)
            else FirstAfter(b, marker)
    ensures ModeAfter(a + b, marker) == if ModeAfter(a, marker).Some? then ModeAfter(a, marker)
            else ModeAfter(b, marker)
    decreases |a|
  {
    hide StartsWith, DigitSpan;
    if a == [] {
      assert a + b == b;
    } else {
      assert (a + b)[1..] == a[1..] + b;
      FirstInConcat(a[1..], b, marker);
    }
  }

  lemma ValueInSection(headers: seq<Header>, rest: seq<Line>, word: Word, value: string)
    requires Header(word, value) in headers && value != "" &&
             forall h | h in headers && h.word == word :: h.value == value
    ensures FirstAfter(PrintHeaders(headers) + rest, Text(word)) == Some(value)
    ensures DigitSpan(value) == |value| ==> ModeAfter(PrintHeaders(headers) + rest, Text(word)) == Some(value)
  {
    hide *;
    ValueIs(headers, word, value);
    FirstInConcat(PrintHeaders(headers), rest, Text(word));
  }

  lemma NoValueInSection(headers: seq<Header>, rest: seq<Line>, word: Word)
    requires (forall h | h in headers :: h.word != word) && forall line | line in rest :: NoLetter(line)
    ensures FirstAfter(PrintHeaders(headers) + rest, Text(word)) == None
    ensures ModeAfter(PrintHeaders(headers) + rest, Text(word)) == None
  {
    NoValue(headers, word);
    WordIsLetters(word);
    hide *;
    NoneAfter(rest, Text(word));
    FirstInConcat(PrintHeaders(headers), rest, Text(word));
  }

  lemma WordIsLetters(word: Word)
    ensures Text(word) != [] && 'a' <= Text(word)[0] <= 'z'
  {
  }

  /** A header that starts with no letter is not looked for among words. */
  lemma {:induction false} PastHeaders(headers: seq<Header>, rest: seq<Line>, marker: string)
    requires marker != [] && !('a' <= marker[0] <= 'z')
    ensures FirstAfter(PrintHeaders(headers) + rest, marker) == FirstAfter(rest, marker)
    decreases |headers|
  {
    hide StartsWith, Text;
    if headers == [] {
      assert PrintHeaders(headers) + rest == rest;
    } else {
      assert (PrintHeaders(headers) + rest)[1..] == PrintHeaders(headers[1..]) + rest;
      WordIsLetters(headers[0].word);
      Differs(PrintHeader(headers[0]), marker, 0);
      PastHeaders(headers[1..], rest, marker);
    }
  }

  // ---- names ----

  /** A path as a header prints it: as it is, or escaped between quotes. */
  datatype Name = Bare(text: string) | Quoted(text: string)

  function Token(prefix: string, name: Name): string {
    match name
    case Bare(text) => prefix + text
    case Quoted(text) => "\"" + prefix + text + "\""
  }

  predicate Escaped(text: string) {
    if text == [] then true
    else if text[0] == '\\' then |text| > 1 && Escaped(text[2..])
    else text[0] != '"' && Escaped(text[1..])
  }

  /** Names that git prints: a bare one has no quote and no blank but spaces, a quoted one is escaped. */
  ghost predicate Printable(name: Name) {
    && name.text != "" && Lacks(name.text, '\t')
    && if name.Bare? then Lacks(name.text, '"') && OnlySpaces(name.text) else Escaped(name.text)
  }

  predicate OnlySpaces(s: string) {
    forall i | 0 <= i < |s| && IsSpace(s[i]) :: s[i] == ' '
  }

  ghost predicate Simple(component: string) {
    component != "" && forall i | 0 <= i < |component| :: !IsSpace(component[i]) && component[i] !in {'/', '"', '\\'}
  }

  /** What a prefix may be: nothing, or one component and a slash. */
  ghost predicate Prefix(prefix: string) {
    prefix == "" || (prefix[|prefix| - 1] == '/' && Simple(prefix[..|prefix| - 1]))
  }

  lemma PrefixChars(prefix: string, i: nat)
    requires Prefix(prefix) && i < |prefix|
    ensures !IsSpace(prefix[i]) && prefix[i] != '"' && prefix[i] != '\\'
  {
    if i < |prefix| - 1 { assert prefix[i] == prefix[..|prefix| - 1][i]; }
  }

  lemma PrefixLacks(prefix: string)
    requires Prefix(prefix)
    ensures Lacks(prefix, ' ') && Lacks(prefix, '"') && Lacks(prefix, '\t') && Lacks(prefix, '\\')
    ensures prefix != "" ==> !IsSpace(prefix[0])
  {
    hide Prefix;
    forall i | 0 <= i < |prefix| ensures !IsSpace(prefix[i]) && prefix[i] != '"' && prefix[i] != '\\' {
      PrefixChars(prefix, i);
    }
  }

  lemma TokenIsSome(prefix: string, name: Name)
    requires Printable(name)
    ensures Token(prefix, name) != ""
  {
  }

  lemma TokenLacks(prefix: string, name: Name)
    requires Prefix(prefix) && Printable(name)
    ensures Lacks(Token(prefix, name), '\t') && (name.Bare? ==> Lacks(Token(prefix, name), '"'))
    ensures name.Quoted? ==> Trimmed(Token(prefix, name))
  {
    PrefixLacks(prefix);
    hide Escaped, Prefix;
  }

  /** How a name reads on a file header: as it is when no blank is at either end, and otherwise without those blanks. */
  ghost predicate TokenReads(token: string, decode: Decoder) {
    && (Trimmed(token) ==> Named(token, decode) == Unquote(token, decode))
    && (!Trimmed(token) ==> Unquote(token, decode) == Ok(token) && Named(token, decode) == Ok(Strip(token)))
    && (Strip(token) == token <==> Trimmed(token)) && (Strip(token) == "" <==> IsBlank(token))
  }

  lemma TokenIsRead(prefix: string, name: Name, decode: Decoder)
    requires Prefix(prefix) && Printable(name)
    ensures TokenReads(Token(prefix, name), decode)
  {
    var token := Token(prefix, name);
    TokenIsSome(prefix, name);
    TokenLacks(prefix, name);
    StripIff(token);
    var lead, trail := StripSplits(token);
    NoTab(token);
    if name.Bare? { NamedBare(token, decode); }
    hide Strip, BeforeTab, Prefix, Printable, Token;
    assert name.Bare? ==> token[0] != '"';
  }

  // ---- the name on a header of one path ----

  lemma {:induction false} EndOfQuoted(front: string, text: string, rest: string)
    requires Escaped(text)
    ensures QuotedEnd(front + text + "\"" + rest, |front|) == Some(|front| + |text| + 1)
    decreases |text|
  {
    var s := front + text + "\"" + rest;
    if text != [] {
      assert s[|front|] == text[0];
      var n := if text[0] == '\\' then 2 else 1;
      assert text == text[..n] + text[n..];
      assert s == (front + text[..n]) + text[n..] + "\"" + rest;
      EndOfQuoted(front + text[..n], text[n..], rest);
    }
  }

  lemma {:induction false} EscapedAfter(prefix: string, text: string)
    requires Lacks(prefix, '"') && Lacks(prefix, '\\') && Escaped(text)
    ensures Escaped(prefix + text)
    decreases |prefix|
  {
    if prefix == [] {
      assert prefix + text == text;
    } else {
      assert (prefix + text)[1..] == prefix[1..] + text;
      EscapedAfter(prefix[1..], text);
    }
  }

  lemma QuotedFirst(was: string, text: string, second: string)
    requires Prefix(was) && Escaped(text)
    ensures var first := Token(was, Quoted(text));
            var names := first + " " + second;
            names[..1] == "\"" && QuotedEnd(names, 1) == Some(|first|) && names[|first|..] == " " + second
  {
    hide Prefix, QuotedEnd, Escaped, Lacks;
    PrefixLacks(was);
    EscapedAfter(was, text);
    EndOfQuoted("\"", was + text, " " + second);
    Regroup("\"", was, text, "\"", " " + second);
    Associates(Token(was, Quoted(text)), " ", second);
  }

  lemma Associates(a: string, b: string, c: string)
    ensures a + b + c == a + (b + c)
  {
  }

  lemma Regroup(a: string, b: string, c: string, d: string, e: string)
    ensures var s := a + b + c + d + e;
            s == a + (b + c) + d + e && s[..|a|] == a && s[|a + b + c + d|..] == e
  {
  }

  lemma AfterBlank(token: string)
    requires token != "" && token[0] == '"'
    ensures TrimLeft(" " + token) == token
  {
    assert (" " + token)[1..] == token;
    assert TrimLeft(token) == token;
  }

  /** The header of one quoted path names it under the second prefix. */
  lemma QuotedNewName(block: seq<Line>, was: string, now: string, text: string, decode: Decoder)
    requires Prefix(was) && Escaped(text)
    requires FirstAfter(block, GIT_FILE) == Some(Token(was, Quoted(text)) + " " + Token(now, Quoted(text)))
    ensures GitNewName(block, decode) == Unquote(Token(now, Quoted(text)), decode)
  {
    AfterBlank(Token(now, Quoted(text)));
    hide FirstAfter, Unquote, Prefix, Token, TrimLeft, QuotedEnd, Escaped;
    QuotedFirst(was, text, Token(now, Quoted(text)));
  }

  /** The header of one path without quotes, spaces included, names it under the second prefix. */
  lemma BareNewName(block: seq<Line>, was: string, now: string, text: string, decode: Decoder)
    requires Prefix(was) && Prefix(now) && (was == "" <==> now == "") && text != "" && Lacks(text, '"')
    requires FirstAfter(block, GIT_FILE) == Some(was + text + " " + now + text)
    ensures GitNewName(block, decode) == Ok(now + text)
  {
    hide FirstAfter, SecondName;
    PrefixLacks(was);
    PrefixLacks(now);
    var names := was + text + " " + now + text;
    NoQuote(names, 0);
    assert names[..1][0] == names[0] != '"';
    if was == "" {
      assert names == text + " " + text && now + text == text;
      UnprefixedHeaderName(text);
    } else {
      var p, q := was[..|was| - 1], now[..|now| - 1];
      assert was == p + "/" && now == q + "/";
      assert names == TwoNames(p, q, text);
      PrefixedHeaderName(p, q, text);
    }
  }

  lemma NewNameOf(block: seq<Line>, was: string, now: string, name: Name, decode: Decoder)
    requires Prefix(was) && Prefix(now) && (was == "" <==> now == "") && Printable(name)
    requires FirstAfter(block, GIT_FILE) == Some(Token(was, name) + " " + Token(now, name))
    ensures GitNewName(block, decode) == Unquote(Token(now, name), decode)
  {
    hide FirstAfter, Prefix, GitNewName, Escaped;
    match name
    case Quoted(text) =>
      QuotedNewName(block, was, now, text, decode);
    case Bare(text) =>
      assert was + text + " " + (now + text) == was + text + " " + now + text;
      BareNewName(block, was, now, text, decode);
      PrefixLacks(now);
      assert (now + text)[0] != '"';
  }

  // ---- the names of a rename or copy ----

  lemma Unquoted(s: string)
    requires Lacks(s, '"')
    ensures StripQuotes(s) == s
  {
  }

  lemma {:induction false} QuotesAfter(text: string) returns (name: string, quotes: string)
    requires text != "" && text[0] != '"'
    ensures text == name + quotes && name != "" && Lacks(quotes, name[|name| - 1]) && StripQuotes(text) == name
    ensures name[|name| - 1] != '"'
    decreases |text|
  {
    if text[|text| - 1] == '"' {
      var rest;
      name, rest := QuotesAfter(text[..|text| - 1]);
      quotes := rest + "\"";
    } else {
      name, quotes := text, "";
    }
  }

  /** Whether the name a file is moved to starts with no blank. */
  predicate StartsPlainly(name: Name) {
    name.Quoted? || (name.text != "" && name.text[0] != ' ')
  }

  lemma BareSplits(text: string) returns (lead: string, key: string, trail: string)
    requires Printable(Bare(text))
    ensures StripQuotes(Strip(text)) == Strip(text) == key && text == lead + key + trail
    ensures key != "" ==> Lacks(trail, key[|key| - 1])
    ensures (lead == "" <==> StartsPlainly(Bare(text))) && (lead != "" ==> lead[|lead| - 1] == ' ')
    ensures key == "" ==> trail == ""
  {
    lead, trail := StripSplits(text);
    key := Strip(text);
    hide Strip;
    if key == "" { lead, trail := text, ""; }
    if lead != "" { assert lead[0] == text[0] && lead[|lead| - 1] == text[|lead| - 1]; } else {
      assert key[0] == text[0];
    }
    LacksInside(lead, key, trail);
    Unquoted(key);
  }

  lemma LacksInside(lead: string, key: string, trail: string)
    requires Lacks(lead + key + trail, '"')
    ensures Lacks(key, '"') && Lacks(key + trail, '"') && Lacks(lead, '"')
  {
    var s := lead + key + trail;
    assert forall i | 0 <= i < |key| :: key[i] == s[|lead| + i];
    assert forall i | 0 <= i < |trail| :: trail[i] == s[|lead| + |key| + i];
    assert forall i | 0 <= i < |lead| :: lead[i] == s[i];
  }

  lemma SearchedBare(prefix: string, text: string) returns (key: string, tail: string)
    requires Printable(Bare(text)) && StartsPlainly(Bare(text))
    ensures StripQuotes(Strip("" + text)) == key && prefix + text == prefix + key + tail
    ensures key != "" && Lacks(tail, key[|key| - 1])
  {
    hide Strip, StripQuotes;
    var lead;
    lead, key, tail := BareSplits(text);
    assert "" + text == text == key + tail;
    assert prefix + (key + tail) == prefix + key + tail;
  }

  lemma SearchedQuoted(prefix: string, text: string) returns (key: string, tail: string)
    requires text != "" && Escaped(text)
    ensures StripQuotes(Strip(Token("", Quoted(text)))) == key &&
            Token(prefix, Quoted(text)) == "\"" + prefix + key + tail
    ensures key != "" && Lacks(tail, key[|key| - 1])
  {
    var token := Token("", Quoted(text));
    StripIff(token);
    hide Strip;
    key, tail := QuotesAfter(text + "\"");
    assert token[1..] == text + "\"";
    assert "\"" + prefix + key + tail == "\"" + prefix + (key + tail);
  }

  /** What the search goes by: the name a header without prefix gives, which the one with a prefix ends in. */
  lemma Searched(prefix: string, name: Name) returns (front: string, key: string, tail: string)
    requires Prefix(prefix) && Printable(name) && StartsPlainly(name)
    ensures StripQuotes(Strip(Token("", name))) == key && Token(prefix, name) == front + key + tail
    ensures Lacks(front, ' ') && key != "" && Lacks(tail, key[|key| - 1])
  {
    hide Strip, StripQuotes, Prefix;
    PrefixLacks(prefix);
    match name
    case Bare(text) =>
      key, tail := SearchedBare(prefix, text);
      front := prefix;
    case Quoted(text) =>
      key, tail := SearchedQuoted(prefix, text);
      front := "\"" + prefix;
  }

  lemma MovedNames(block: seq<Line>, verb: string, was: string, now: string, from: Name, to: Name, decode: Decoder)
    requires Prefix(was) && Prefix(now) && Printable(from) && Printable(to) && StartsPlainly(to)
    requires FirstAfter(block, GIT_FILE) == Some(Token(was, from) + " " + Token(now, to))
    requires FirstAfter(block, verb + " to ") == Some(Token("", to))
    ensures MovedPaths(block, verb, decode) == Both(Unquote(Token(was, from), decode), Unquote(Token(now, to), decode))
  {
    hide *;
    var front, key, tail := Searched(now, to);
    TokenIsSome(was, from);
    var source := Token(was, from);
    assert source + " " + (front + key + tail) == source + " " + front + key + tail;
    MovedPathsOf(block, verb, Token("", to), source, front, key, tail, decode);
  }

  lemma CutInBlanks(front: string, key: string, tail: string)
    requires front != "" && front[|front| - 1] == ' ' && (if key == "" then tail == "" else Lacks(tail, key[|key| - 1]))
    ensures var line := front + key + tail;
            LastAt(line, key, |line| - |key|) == |front| && LastAt(line, " ", |front| - 1) == |front| - 1
  {
    var line := front + key + tail;
    Middle(front, key, tail);
    assert line[|front| - 1..|front|] == " ";
    forall i | |front| < i <= |line| - |key| ensures !StandsAt(line, key, i) { NotInTail(front, key, tail, i); }
    LastIs(line, key, |line| - |key|, |front|);
    LastIs(line, " ", |front| - 1, |front| - 1);
  }

  lemma MovedPathsCut(block: seq<Line>, verb: string, destination: string, front: string, key: string, tail: string,
                      decode: Decoder)
    requires FirstAfter(block, verb + " to ") == Some(destination) && StripQuotes(Strip(destination)) == key
    requires FirstAfter(block, GIT_FILE) == Some(front + key + tail)
    requires |front| > 1 && front[|front| - 1] == ' ' && (if key == "" then tail == "" else Lacks(tail, key[|key| - 1]))
    ensures MovedPaths(block, verb, decode) == Both(Unquote(front[..|front| - 1], decode), Unquote(key + tail, decode))
  {
    hide FirstAfter, Strip, LastAt, GIT_FILE, StripQuotes, Unquote, Lacks;
    CutInBlanks(front, key, tail);
    assert (front + key + tail)[..|front| - 1] == front[..|front| - 1];
    assert (front + key + tail)[|front|..] == key + tail;
  }

  lemma NotQuoted(s: string, decode: Decoder)
    requires s != "" ==> s[|s| - 1] != '"'
    ensures Unquote(s, decode) == Ok(s)
  {
  }

  lemma Grouped(source: string, now: string, lead: string, key: string, trail: string)
    ensures source + " " + (now + (lead + key + trail)) == source + (" " + now + lead) + key + trail
  {
  }

  lemma LastOf(source: string, gap: string)
    requires |gap| > 1
    ensures var front := source + gap;
            front[|front| - 1] == gap[|gap| - 1] && |front[..|front| - 1]| > |source|
            && front[..|front| - 1][|front| - 2] == gap[|gap| - 2]
  {
  }

  lemma GapEnds(now: string, lead: string)
    requires Prefix(now) && lead != "" && Lacks(lead, '"')
    ensures var gap := " " + now + lead; gap[|gap| - 1] == lead[|lead| - 1] && gap[|gap| - 2] != '"'
  {
    PrefixLacks(now);
    hide Prefix;
    LacksBoth(" ", now);
    LacksBoth(" " + now, lead);
  }

  lemma LacksBoth(a: string, b: string)
    requires Lacks(a, '"') && Lacks(b, '"')
    ensures Lacks(a + b, '"')
  {
  }

  /** Where a name that starts with a blank is cut. */
  lemma LostParts(source: string, now: string, text: string) returns (front: string, key: string, tail: string)
    requires Prefix(now) && Printable(Bare(text)) && !StartsPlainly(Bare(text)) && source != ""
    ensures source + " " + (now + text) == front + key + tail && StripQuotes(Strip(text)) == key
    ensures |front| > |source| + 1 && front[|front| - 1] == ' ' && front[..|front| - 1][|front| - 2] != '"'
    ensures if key == "" then tail == "" else Lacks(tail, key[|key| - 1])
    ensures Lacks(key + tail, '"') && |key + tail| < |now + text|
  {
    hide Strip, StripQuotes, Prefix;
    var lead;
    lead, key, tail := BareSplits(text);
    assert Lacks(lead + key + tail, '"');
    hide Lacks, Printable;
    LacksInside(lead, key, tail);
    GapEnds(now, lead);
    Grouped(source, now, lead, key, tail);
    LastOf(source, " " + now + lead);
    front := source + (" " + now + lead);
  }

  /** A name that starts with a blank is cut there: both sides are wrong. */
  lemma MovedNamesLost(block: seq<Line>, verb: string, was: string, now: string, from: Name, to: Name, decode: Decoder)
    returns (source: string, name: string)
    requires Prefix(was) && Prefix(now) && Printable(from) && Printable(to) && !StartsPlainly(to)
    requires FirstAfter(block, GIT_FILE) == Some(Token(was, from) + " " + Token(now, to))
    requires FirstAfter(block, verb + " to ") == Some(Token("", to))
    ensures MovedPaths(block, verb, decode) == Ok((source, name)) && source != "" && |name| < |Token(now, to)|
  {
    hide FirstAfter, Strip, GIT_FILE, StripQuotes, Prefix, Printable, MovedPaths, Unquote;
    TokenIsSome(was, from);
    var front, key, tail := LostParts(Token(was, from), now, to.text);
    assert Token("", to) == "" + to.text == to.text && Token(now, to) == now + to.text;
    hide Token, Lacks;
    MovedPathsCut(block, verb, to.text, front, key, tail, decode);
    source, name := front[..|front| - 1], key + tail;
    NotQuoted(source, decode);
    NoQuoteAtEnd(name);
    NotQuoted(name, decode);
  }

  lemma NoQuoteAtEnd(s: string)
    requires Lacks(s, '"')
    ensures s != "" ==> s[|s| - 1] != '"'
  {
  }

  // ---- the patches git prints ----

  datatype Change =
    | Edit(modes: Option<(string, string)>)
    | Create(mode: string)
    | Remove(mode: string)
    | Rename(modes: Option<(string, string)>, similarity: string, to: Name)
    | Copy(modes: Option<(string, string)>, similarity: string, to: Name)

  /** The changed lines; a patch without them changes a mode, moves a file unchanged, or is of an empty file. */
  datatype Body = Body(beforeTime: Option<string>, afterTime: Option<string>, hunks: seq<Hunk>)

  /** One file's patch: its name with the prefixes of its two sides, what happens to it, and the changed lines if
    * any. */
  datatype GitPatch =
    GitPatch(was: string, now: string, name: Name, change: Change, index: Option<string>, body: Option<Body>)

  function NameAfter(g: GitPatch): Name {
    if g.change.Rename? || g.change.Copy? then g.change.to else g.name
  }

  function OldToken(g: GitPatch): string {
    Token(g.was, g.name)
  }

  function NewToken(g: GitPatch): string {
    Token(g.now, NameAfter(g))
  }

  function ModeHeaders(modes: Option<(string, string)>): seq<Header> {
    if modes.None? then [] else [Header(OldMode, modes.value.0), Header(NewMode, modes.value.1)]
  }

  function ChangeHeaders(name: Name, change: Change): seq<Header> {
    match change
    case Edit(modes) => ModeHeaders(modes)
    case Create(mode) => [Header(NewFileMode, mode)]
    case Remove(mode) => [Header(DeletedFileMode, mode)]
    case Rename(modes, similarity, to) =>
      ModeHeaders(modes)
      + [Header(Similarity, similarity), Header(RenameFrom, Token("", name)), Header(RenameTo, Token("", to))]
    case Copy(modes, similarity, to) =>
      ModeHeaders(modes)
      + [Header(Similarity, similarity), Header(CopyFrom, Token("", name)), Header(CopyTo, Token("", to))]
  }

  function Headers(g: GitPatch): seq<Header> {
    [Header(DiffGit, OldToken(g) + " " + NewToken(g))] + ChangeHeaders(g.name, g.change)
    + if g.index.None? then [] else [Header(Index, g.index.value)]
  }

  function FileOf(g: GitPatch): FilePatch
    requires g.body.Some?
  {
    FilePatch(if g.change.Create? then DEV_NULL else OldToken(g), g.body.value.beforeTime,
              if g.change.Remove? then DEV_NULL else NewToken(g), g.body.value.afterTime, g.body.value.hunks)
  }

  function PrintBody(g: GitPatch): seq<Line> {
    if g.body.None? then [] else PrintFile(FileOf(g))
  }

  function PrintGit(g: GitPatch): seq<Line> {
    PrintHeaders(Headers(g)) + PrintBody(g)
  }

  ghost predicate IsMode(mode: string) {
    mode != "" && DigitSpan(mode) == |mode|
  }

  ghost predicate AreModes(modes: Option<(string, string)>) {
    modes.Some? ==> IsMode(modes.value.0) && IsMode(modes.value.1)
  }

  ghost predicate IsChange(change: Change) {
    match change
    case Edit(modes) => AreModes(modes)
    case Create(mode) => IsMode(mode)
    case Remove(mode) => IsMode(mode)
    case Rename(modes, _, to) => AreModes(modes) && Printable(to)
    case Copy(modes, _, to) => AreModes(modes) && Printable(to)
  }

  /** A name that may not decode, but does not decode to no name or to no file. */
  ghost predicate IsFile(token: string, decode: Decoder) {
    && Unquote(token, decode) != Ok("") && Unquote(token, decode) != Ok(DEV_NULL)
    && Named(token, decode) != Ok(DEV_NULL)
  }

  ghost predicate Proper(g: GitPatch, decode: Decoder) {
    && Prefix(g.was) && Prefix(g.now) && (g.was == "" <==> g.now == "") && Printable(g.name) && IsChange(g.change)
    && IsFile(OldToken(g), decode) && IsFile(NewToken(g), decode)
  }

  /** The mode a patch gives its file. */
  function ModeOf(change: Change): string {
    match change
    case Create(mode) => LastFour(mode)
    case Remove(_) => ""
    case _ => if change.modes.None? then "" else LastFour(change.modes.value.1)
  }

  /** The mode is the permissions, the last four digits of the mode the file gets; without a new one it is empty. */
  lemma ModeMeaning(change: Change, kind: string, permissions: string)
    requires |permissions| == 4
    ensures change == Create(kind + permissions) ==> ModeOf(change) == permissions
    ensures !change.Create? && !change.Remove? ==>
            && (change.modes.None? ==> ModeOf(change) == "")
            && (change.modes.Some? && change.modes.value.1 == kind + permissions ==> ModeOf(change) == permissions)
    ensures change.Remove? ==> ModeOf(change) == ""
  {
    hide LastFour;
    LastFourOf(kind, permissions);
  }

  lemma LastFourOf(front: string, last: string)
    requires |last| == 4
    ensures LastFour(front + last) == last
  {
    var s := front + last;
    if |front| == 0 {
      assert s == last;
    } else {
      assert s[|front|..] == last;
    }
  }

  function WriteTo(path: Result<string>, mode: string, isNew: bool): Result<seq<Target>> {
    match path
    case Err => Err
    case Ok(p) => Ok([Target(Write, p, mode, isNew)])
  }

  function DeleteOf(path: Result<string>): Result<seq<Target>> {
    match path
    case Err => Err
    case Ok(p) => Ok([Target(Delete, p, "", false)])
  }

  function Then(a: Result<seq<Target>>, b: Result<seq<Target>>): Result<seq<Target>> {
    match (a, b)
    case (Ok(first), Ok(second)) => Ok(first + second)
    case _ => Err
  }

  /** What a patch intends: an edit writes, a creation writes a new file, a removal deletes, a rename deletes and writes
    * a new file, a copy writes a new file; nothing when a name that must be read does not decode. */
  function GitIntended(g: GitPatch, decode: Decoder): Result<seq<Target>> {
    var was, now, mode := Unquote(OldToken(g), decode), Unquote(NewToken(g), decode), ModeOf(g.change);
    match g.change
    case Edit(_) => if g.body.Some? && was.Err? then Err else WriteTo(now, mode, false)
    case Create(_) => WriteTo(now, mode, true)
    case Remove(_) => DeleteOf(if g.body.Some? then was else now)
    case Rename(_, _, _) => Then(DeleteOf(was), WriteTo(now, mode, true))
    case Copy(_, _, _) => if was.Err? then Err else WriteTo(now, mode, true)
  }

  // ---- what the headers of a printed section read as ----

  lemma RestNoLetter(g: GitPatch, tail: seq<Line>)
    requires AllBlank(tail)
    ensures forall line | line in PrintBody(g) + tail :: NoLetter(line)
  {
    if g.body.Some? {
      FileNoLetter(FileOf(g), tail);
    } else {
      BlankNoLetter(tail);
    }
  }

  function Section(g: GitPatch, tail: seq<Line>): seq<Line> {
    PrintHeaders(Headers(g)) + (PrintBody(g) + tail)
  }

  /** What a patch says under a word. */
  function Says(g: GitPatch, word: Word): Option<string> {
    var modes := if g.change.Create? || g.change.Remove? then None else g.change.modes;
    var moves := g.change.Rename? || g.change.Copy?;
    match word
    case DiffGit => Some(OldToken(g) + " " + NewToken(g))
    case OldMode => if modes.None? then None else Some(modes.value.0)
    case NewMode => if modes.None? then None else Some(modes.value.1)
    case NewFileMode => if g.change.Create? then Some(g.change.mode) else None
    case DeletedFileMode => if g.change.Remove? then Some(g.change.mode) else None
    case Similarity => if moves then Some(g.change.similarity) else None
    case RenameFrom => if g.change.Rename? then Some(Token("", g.name)) else None
    case RenameTo => if g.change.Rename? then Some(Token("", g.change.to)) else None
    case CopyFrom => if g.change.Copy? then Some(Token("", g.name)) else None
    case CopyTo => if g.change.Copy? then Some(Token("", g.change.to)) else None
    case Index => g.index
  }

  lemma ChangeSays(g: GitPatch, h: Header)
    ensures h in ChangeHeaders(g.name, g.change) <==>
            h.word != DiffGit && h.word != Index && Says(g, h.word) == Some(h.value)
  {
    hide OldToken, NewToken, Token;
  }

  lemma HeadersSay(g: GitPatch, h: Header)
    ensures h in Headers(g) <==> Says(g, h.word) == Some(h.value)
  {
    ChangeSays(g, h);
    hide OldToken, NewToken, Token, ChangeHeaders;
  }

  lemma SectionSays(g: GitPatch, tail: seq<Line>, word: Word)
    requires AllBlank(tail) && Says(g, word) != Some("")
    ensures FirstAfter(Section(g, tail), Text(word)) == Says(g, word)
    ensures (Says(g, word).Some? ==> DigitSpan(Says(g, word).value) == |Says(g, word).value|)
            ==> ModeAfter(Section(g, tail), Text(word)) == Says(g, word)
  {
    RestNoLetter(g, tail);
    hide Says, FirstAfter, ModeAfter, Headers, PrintHeaders, PrintBody, Text, DigitSpan, AllBlank, NoLetter;
    forall h ensures h in Headers(g) <==> Says(g, h.word) == Some(h.value) { HeadersSay(g, h); }
    if Says(g, word).Some? {
      assert Header(word, Says(g, word).value) in Headers(g);
      ValueInSection(Headers(g), PrintBody(g) + tail, word, Says(g, word).value);
    } else {
      NoValueInSection(Headers(g), PrintBody(g) + tail, word);
    }
  }

  lemma SectionDeletes(g: GitPatch, tail: seq<Line>)
    requires AllBlank(tail)
    ensures (exists line :: line in Section(g, tail) && StartsWith(line, "deleted file mode")) <==> g.change.Remove?
  {
    RestNoLetter(g, tail);
    hide FirstAfter, ModeAfter, Headers, PrintBody, AllBlank, NoLetter, StartsWith;
    if g.change.Remove? {
      HeadersSay(g, Header(DeletedFileMode, g.change.mode));
      Printed(Headers(g), Header(DeletedFileMode, g.change.mode));
      DeletedStarts(g.change.mode);
    } else {
      forall line | line in Section(g, tail) ensures !StartsWith(line, "deleted file mode") {
        if line in PrintHeaders(Headers(g)) {
          var h := PrintedBy(Headers(g), line);
          HeadersSay(g, h);
          NotDeleted(h);
        } else {
          NotWord(line, "deleted file mode");
        }
      }
    }
  }

  lemma DeletedStarts(mode: string)
    ensures StartsWith(PrintHeader(Header(DeletedFileMode, mode)), "deleted file mode")
  {
    assert "deleted file mode " == "deleted file mode" + " ";
  }

  lemma NotDeleted(h: Header)
    requires h.word != DeletedFileMode
    ensures !StartsWith(PrintHeader(h), "deleted file mode")
  {
    if h.word == DiffGit {
      Differs(PrintHeader(h), "deleted file mode", 1);
    } else {
      Differs(PrintHeader(h), "deleted file mode", 0);
    }
  }

  lemma {:induction false} Printed(headers: seq<Header>, h: Header)
    requires h in headers
    ensures PrintHeader(h) in PrintHeaders(headers)
    decreases |headers|
  {
    hide PrintHeader;
    if h != headers[0] { Printed(headers[1..], h); }
  }

  lemma {:induction false} PrintedBy(headers: seq<Header>, line: Line) returns (h: Header)
    requires line in PrintHeaders(headers)
    ensures h in headers && PrintHeader(h) == line
    decreases |headers|
  {
    hide PrintHeader;
    if line == PrintHeader(headers[0]) {
      h := headers[0];
    } else {
      h := PrintedBy(headers[1..], line);
    }
  }

  /** The paths on the two file headers; none when no line is changed. */
  lemma SectionFiles(g: GitPatch, tail: seq<Line>, decode: Decoder)
    requires AllBlank(tail) && Printable(g.name) && Printable(NameAfter(g))
    ensures HeaderPath(Section(g, tail), OLD_FILE, decode) ==
            if g.body.None? then Ok("") else if g.change.Create? then Ok(DEV_NULL) else Named(OldToken(g), decode)
    ensures HeaderPath(Section(g, tail), NEW_FILE, decode) ==
            if g.body.None? then Ok("") else if g.change.Remove? then Ok(DEV_NULL) else Named(NewToken(g), decode)
  {
    var rest := PrintBody(g) + tail;
    PastHeaders(Headers(g), rest, OLD_FILE);
    PastHeaders(Headers(g), rest, NEW_FILE);
    TokenIsSome(g.was, g.name);
    TokenIsSome(g.now, NameAfter(g));
    hide FirstAfter, Headers, PrintHeaders, PrintFile, Unquote, Token, Printable, Named, AllBlank, Stamped;
    if g.body.None? {
      assert rest == tail;
      NoneInBlank(tail, OLD_FILE);
      NoneInBlank(tail, NEW_FILE);
    } else {
      HeadersOf(FileOf(g), tail);
      ReadPath(Section(g, tail), OLD_FILE, FileOf(g).before, FileOf(g).beforeTime, decode);
      ReadPath(Section(g, tail), NEW_FILE, FileOf(g).after, FileOf(g).afterTime, decode);
      NoFileIsNamed(decode);
    }
  }

  lemma NoFileIsNamed(decode: Decoder)
    ensures Named(DEV_NULL, decode) == Ok(DEV_NULL)
  {
    hide BeforeTab, Strip;
    NoTab(DEV_NULL);
    StripIff(DEV_NULL);
  }

  lemma {:induction false} NoneInBlank(lines: seq<Line>, marker: string)
    requires AllBlank(lines) && marker != [] && !IsSpace(marker[0])
    ensures FirstAfter(lines, marker) == None
    decreases |lines|
  {
    if lines != [] {
      assert lines[0] in lines;
      FirstChar(lines[0], marker);
      NoneInBlank(lines[1..], marker);
    }
  }

  // ---- what a printed section intends ----

  /** What the headers of a section read as, whatever the change is. */
  ghost predicate Reads(block: seq<Line>, g: GitPatch, decode: Decoder) {
    && ModeAfter(block, "new file mode ") == Says(g, NewFileMode) && ModeAfter(block, "new mode ") == Says(g, NewMode)
    && FirstAfter(block, "rename" + " to ") == Says(g, RenameTo)
    && FirstAfter(block, "copy" + " to ") == Says(g, CopyTo)
    && FirstAfter(block, GIT_FILE) == Says(g, DiffGit)
    && ((exists line :: line in block && StartsWith(line, "deleted file mode")) <==> g.change.Remove?)
  }

  lemma SaysSomething(g: GitPatch, word: Word, decode: Decoder)
    requires Proper(g, decode) && word in {DiffGit, NewMode, NewFileMode, RenameTo, CopyTo}
    ensures Says(g, word) != Some("")
    ensures Says(g, word).Some? && word in {NewMode, NewFileMode} ==>
            DigitSpan(Says(g, word).value) == |Says(g, word).value|
  {
    if g.change.Rename? || g.change.Copy? { TokenIsSome("", g.change.to); }
    hide DigitSpan, Prefix, Printable, Unquote, Token;
  }

  lemma SectionReads(g: GitPatch, tail: seq<Line>, decode: Decoder)
    requires AllBlank(tail) && Proper(g, decode)
    ensures Reads(Section(g, tail), g, decode)
  {
    hide FirstAfter, ModeAfter, Section, AllBlank, StartsWith, DigitSpan, Proper, Says;
    assert "rename" + " to " == "rename to " && "copy" + " to " == "copy to ";
    forall word | word in {DiffGit, NewMode, NewFileMode, RenameTo, CopyTo}
      ensures FirstAfter(Section(g, tail), Text(word)) == Says(g, word)
      ensures word in {NewMode, NewFileMode} ==> ModeAfter(Section(g, tail), Text(word)) == Says(g, word)
    {
      SaysSomething(g, word, decode);
      SectionSays(g, tail, word);
    }
    SectionDeletes(g, tail);
  }

  lemma NothingMoves(block: seq<Line>, verb: string, decode: Decoder)
    requires FirstAfter(block, verb + " to ") == None
    ensures MovedPaths(block, verb, decode) == Ok(("", ""))
  {
  }

  lemma MoveTargets(block: seq<Line>, g: GitPatch, decode: Decoder)
    requires Reads(block, g, decode) && Proper(g, decode) && (g.change.Rename? || g.change.Copy?)
    requires StartsPlainly(g.change.to)
    ensures SectionTargets(block, decode) == GitIntended(g, decode)
  {
    hide FirstAfter, ModeAfter, MovedPaths, PlainTargets, Unquote, Prefix, Printable, StartsWith, LastFour;
    if g.change.Rename? {
      MovedNames(block, "rename", g.was, g.now, g.name, g.change.to, decode);
      assert forall a: Target, b: Target :: [a] + [b] == [a, b];
    } else {
      NothingMoves(block, "rename", decode);
      MovedNames(block, "copy", g.was, g.now, g.name, g.change.to, decode);
    }
  }

  lemma PlainIsOne(block: seq<Line>, mode: string, created: bool, decode: Decoder)
    ensures var plain := PlainTargets(block, mode, created, decode); plain.Ok? ==> |plain.value| == 1
  {
    hide HeaderPath, GitNewName, StartsWith;
  }

  lemma RenameReads(block: seq<Line>, source: string, name: string, decode: Decoder)
    requires MovedPaths(block, "rename", decode) == Ok((source, name)) &&
             MovedPaths(block, "copy", decode) == Ok(("", ""))
    ensures var t := SectionTargets(block, decode);
            t.Ok? ==> |t.value| == 1 || (|t.value| == 2 && t.value[1].path == name)
  {
    forall mode, created
      ensures PlainTargets(block, mode, created, decode).Ok? ==>
                |PlainTargets(block, mode, created, decode).value| == 1 { PlainIsOne(block, mode, created, decode); }
    hide MovedPaths, PlainTargets, ModeAfter;
  }

  lemma CopyReads(block: seq<Line>, g: GitPatch, source: string, name: string, decode: Decoder)
    requires MovedPaths(block, "rename", decode) == Ok(("", "")) &&
             MovedPaths(block, "copy", decode) == Ok((source, name))
    requires ModeAfter(block, "new file mode ") == None && g.change.Copy?
    requires ReadsHeaders(block, g, decode) && IsFile(OldToken(g), decode)
    ensures var t := SectionTargets(block, decode);
            t.Ok? ==> |t.value| == 1 && (t.value[0].isNew ==> t.value[0].path == name)
  {
    forall mode
      ensures var plain := PlainTargets(block, mode, false, decode);
              plain.Ok? ==> |plain.value| == 1 && !plain.value[0].isNew { PlainIsNotNew(block, g, mode, decode); }
    hide MovedPaths, PlainTargets, ModeAfter, ReadsHeaders, IsFile;
  }

  /** A file moved to a name that starts with a blank is not: it is written elsewhere, or not as a new file. */
  lemma MoveTargetsLost(block: seq<Line>, g: GitPatch, decode: Decoder)
    requires Reads(block, g, decode) && Proper(g, decode) && (g.change.Rename? || g.change.Copy?)
    requires ReadsHeaders(block, g, decode) && !StartsPlainly(g.change.to)
    ensures GitIntended(g, decode).Ok? ==> SectionTargets(block, decode) != GitIntended(g, decode)
  {
    hide FirstAfter, ModeAfter, MovedPaths, SectionTargets, Unquote, Prefix, Printable, StartsWith, LastFour,
         HeaderPath,
         Named, ReadsHeaders, IsFile, StartsPlainly;
    NewTokenIsRead(g, decode);
    if g.change.Rename? {
      var source, name := MovedNamesLost(block, "rename", g.was, g.now, g.name, g.change.to, decode);
      NothingMoves(block, "copy", decode);
      RenameReads(block, source, name, decode);
    } else {
      NothingMoves(block, "rename", decode);
      var source, name := MovedNamesLost(block, "copy", g.was, g.now, g.name, g.change.to, decode);
      CopyReads(block, g, source, name, decode);
    }
  }

  lemma NewTokenIsRead(g: GitPatch, decode: Decoder)
    requires Proper(g, decode) && (g.change.Rename? || g.change.Copy?) && !StartsPlainly(g.change.to)
    ensures Unquote(NewToken(g), decode) == Ok(NewToken(g))
  {
    TokenLacks(g.now, g.change.to);
    TokenIsSome(g.now, g.change.to);
    hide Prefix, Printable;
  }

  /** What the file headers read as. */
  ghost predicate ReadsHeaders(block: seq<Line>, g: GitPatch, decode: Decoder) {
    && HeaderPath(block, OLD_FILE, decode) ==
       (if g.body.None? then Ok("") else if g.change.Create? then Ok(DEV_NULL) else Named(OldToken(g), decode))
    && HeaderPath(block, NEW_FILE, decode) ==
       (if g.body.None? then Ok("") else if g.change.Remove? then Ok(DEV_NULL) else Named(NewToken(g), decode))
    && ((exists line :: line in block && StartsWith(line, "deleted file mode")) <==> g.change.Remove?)
  }

  lemma PlainIsNotNew(block: seq<Line>, g: GitPatch, mode: string, decode: Decoder)
    requires ReadsHeaders(block, g, decode) && IsFile(OldToken(g), decode) && !g.change.Create?
    ensures var plain := PlainTargets(block, mode, false, decode);
            plain.Ok? ==> |plain.value| == 1 && !plain.value[0].isNew
  {
    hide HeaderPath, GitNewName, Unquote, Named, StartsWith, OldToken, NewToken;
  }

  /** A name that a file header gives right: it has no blank at either end, or nothing else. */
  predicate Survives(token: string) {
    Trimmed(token) || IsBlank(token)
  }

  /** Whether a patch reads right: the name a file is moved to starts with no blank, and the name that changed lines are
    * read by survives on its header. Without changed lines a name is read from the first line, whatever it is. */
  ghost predicate ReadsRight(g: GitPatch) {
    match g.change
    case Rename(_, _, to) => StartsPlainly(to)
    case Copy(_, _, to) => StartsPlainly(to)
    case Remove(_) => g.body.None? || Survives(OldToken(g))
    case _ => g.body.None? || Survives(NewToken(g))
  }

  lemma PlainIsIntended(block: seq<Line>, g: GitPatch, decode: Decoder)
    requires ReadsHeaders(block, g, decode) && GitNewName(block, decode) == Unquote(NewToken(g), decode)
    requires IsFile(OldToken(g), decode) && IsFile(NewToken(g), decode)
    requires TokenReads(OldToken(g), decode) && TokenReads(NewToken(g), decode)
    requires IsBlank(OldToken(g)) ==> OldToken(g) == NewToken(g)
    requires !g.change.Rename? && !g.change.Copy?
    ensures var plain := PlainTargets(block, ModeOf(g.change), g.change.Create?, decode);
            && (ReadsRight(g) ==> plain == GitIntended(g, decode))
            && (!ReadsRight(g) && GitIntended(g, decode).Ok? ==> plain != GitIntended(g, decode))
  {
    hide HeaderPath, GitNewName, Unquote, Named, StartsWith, ModeOf, OldToken, NewToken, Trimmed, IsBlank, Strip;
  }

  lemma BlankHasNoPrefix(g: GitPatch)
    requires Prefix(g.was) && (g.was == "" <==> g.now == "") && Printable(g.name) && !g.change.Rename? &&
             !g.change.Copy?
    ensures IsBlank(OldToken(g)) ==> OldToken(g) == NewToken(g)
  {
    PrefixLacks(g.was);
    hide Prefix, Printable;
    if g.was != "" || g.name.Quoted? { assert !IsSpace(OldToken(g)[0]); }
  }

  lemma StayTargets(block: seq<Line>, g: GitPatch, decode: Decoder)
    requires Reads(block, g, decode) && Proper(g, decode) && !g.change.Rename? && !g.change.Copy?
    requires ReadsHeaders(block, g, decode) && GitNewName(block, decode) == Unquote(NewToken(g), decode)
    ensures ReadsRight(g) ==> SectionTargets(block, decode) == GitIntended(g, decode)
    ensures !ReadsRight(g) && GitIntended(g, decode).Ok? ==> SectionTargets(block, decode) != GitIntended(g, decode)
  {
    hide FirstAfter, ModeAfter, MovedPaths, PlainTargets, GitIntended, ReadsHeaders, IsFile, StartsWith, Token,
         OldToken,
         NewToken, TokenReads, ReadsRight, Prefix, Printable, GitNewName, Unquote, IsBlank;
    assert TokenReads(OldToken(g), decode) && TokenReads(NewToken(g), decode) by { TokensAreRead(g, decode); }
    BlankHasNoPrefix(g);
    PlainIsIntended(block, g, decode);
    NothingMoves(block, "rename", decode);
    NothingMoves(block, "copy", decode);
    assert ModeOf(g.change) == var created := Says(g, NewFileMode);
                               var changed := if created.Some? then created else Says(g, NewMode);
                               if changed.Some? then LastFour(changed.value) else "";
  }

  lemma TokensAreRead(g: GitPatch, decode: Decoder)
    requires Proper(g, decode)
    ensures TokenReads(OldToken(g), decode) && TokenReads(NewToken(g), decode)
  {
    hide Prefix, Printable, TokenReads, Token, IsFile;
    TokenIsRead(g.was, g.name, decode);
    TokenIsRead(g.now, NameAfter(g), decode);
  }

  /** A printed patch reads as what it intends exactly when it reads right; an error is one either way. */
  lemma GitTargets(g: GitPatch, tail: seq<Line>, decode: Decoder)
    requires Proper(g, decode) && AllBlank(tail)
    ensures ReadsRight(g) ==> SectionTargets(PrintGit(g) + tail, decode) == GitIntended(g, decode)
    ensures GitIntended(g, decode).Ok? ==>
              (SectionTargets(PrintGit(g) + tail, decode) == GitIntended(g, decode) <==> ReadsRight(g))
  {
    hide Headers, PrintHeaders, PrintBody, SectionTargets, GitIntended, AllBlank, Printable, Prefix, IsFile,
         HeaderPath, StartsWith, Survives, StartsPlainly;
    assert PrintGit(g) + tail == Section(g, tail);
    SectionReads(g, tail, decode);
    SectionFiles(g, tail, decode);
    if g.change.Rename? || g.change.Copy? {
      if StartsPlainly(g.change.to) {
        MoveTargets(Section(g, tail), g, decode);
      } else {
        MoveTargetsLost(Section(g, tail), g, decode);
      }
    } else {
      NewNameOf(Section(g, tail), g.was, g.now, g.name, decode);
      StayTargets(Section(g, tail), g, decode);
    }
  }

  // ---- the manifest of a printed diff ----

  function PrintEachGit(patches: seq<GitPatch>): seq<seq<Line>> {
    seq(|patches|, i requires 0 <= i < |patches| => PrintGit(patches[i]))
  }

  /** In order, what all of them intend; nothing when one of them intends nothing. */
  function AllGitIntended(patches: seq<GitPatch>, decode: Decoder): Result<seq<Target>> {
    if patches == [] then Ok([]) else Then(GitIntended(patches[0], decode), AllGitIntended(patches[1..], decode))
  }

  lemma DiffGitFirst(g: GitPatch, tail: seq<Line>)
    ensures var block := PrintGit(g) + tail;
            && block != [] && block[0] == PrintHeader(Headers(g)[0]) && Headers(g)[0].word == DiffGit
            && block[1..] == PrintHeaders(Headers(g)[1..]) + (PrintBody(g) + tail)
  {
    hide PrintBody, ChangeHeaders, OldToken, NewToken, PrintHeader;
    assert PrintGit(g) + tail == PrintHeaders(Headers(g)) + (PrintBody(g) + tail);
  }

  lemma LaterHeader(g: GitPatch, h: Header)
    requires h in Headers(g)[1..]
    ensures h.word != DiffGit
  {
    ChangeSays(g, h);
    hide ChangeHeaders, OldToken, NewToken, Says;
    assert h in ChangeHeaders(g.name, g.change) || h.word == Index;
  }

  lemma NamesAreFirst(g: GitPatch, tail: seq<Line>)
    requires AllBlank(tail)
    ensures FirstAfter(PrintGit(g) + tail, GIT_FILE).Some?
  {
    SectionSays(g, tail, DiffGit);
    hide FirstAfter, PrintHeaders, PrintBody, Headers;
    assert PrintGit(g) + tail == Section(g, tail);
  }

  /** A printed patch is one section. */
  lemma PrintsOneSection(g: GitPatch, tail: seq<Line>)
    requires AllBlank(tail)
    ensures GitSection(PrintGit(g) + tail) && FirstAfter(PrintGit(g) + tail, GIT_FILE).Some?
  {
    NamesAreFirst(g, tail);
    RestNoLetter(g, tail);
    DiffGitFirst(g, tail);
    PrintedValue(Headers(g)[0]);
    hide PrintBody, PrintGit, Headers, AllBlank, NoLetter, StartsWith, PrintHeaders, PrintHeader, FirstAfter;
    var block := PrintGit(g) + tail;
    forall i | 0 <= i < |block[1..]| ensures !StartsWith(block[1..][i], GIT_FILE) {
      var line := block[1..][i];
      assert line in PrintHeaders(Headers(g)[1..]) || line in PrintBody(g) + tail;
      if line in PrintHeaders(Headers(g)[1..]) {
        var h := PrintedBy(Headers(g)[1..], line);
        LaterHeader(g, h);
        OtherWord(h, DiffGit);
      } else {
        NotWord(line, GIT_FILE);
      }
    }
  }

  lemma SectionIsNotBlank(block: seq<Line>, more: seq<Line>)
    requires GitSection(block)
    ensures !AllBlank(block + more)
  {
    var line := block[0];
    assert (block + more)[0] == line && line in block + more;
    FirstChar(line, GIT_FILE);
    assert !IsSpace(line[0]);
  }

  lemma {:induction false} ConcatTrailed(blocks: seq<seq<Line>>, tail: seq<Line>)
    requires blocks != []
    ensures Concat(Trailed(blocks, tail)) == Concat(blocks) + tail
    decreases |blocks|
  {
    if |blocks| == 1 {
      assert Trailed(blocks, tail) == [blocks[0] + tail];
      assert Concat(blocks[1..]) == [] && Concat(Trailed(blocks, tail)[1..]) == [];
    } else {
      assert Trailed(blocks, tail)[1..] == Trailed(blocks[1..], tail);
      ConcatTrailed(blocks[1..], tail);
      assert blocks[0] + (Concat(blocks[1..]) + tail) == Concat(blocks) + tail;
    }
  }

  lemma EachGitSplits(patches: seq<GitPatch>, tail: seq<Line>)
    requires |patches| > 1
    ensures var blocks := Trailed(PrintEachGit(patches), tail);
            blocks[0] == PrintGit(patches[0]) && blocks[1..] == Trailed(PrintEachGit(patches[1..]), tail)
  {
    hide PrintGit;
    assert PrintEachGit(patches)[1..] == PrintEachGit(patches[1..]);
  }

  /** Everything each patch intends is something. */
  ghost predicate AllMeanSomething(patches: seq<GitPatch>, decode: Decoder) {
    forall g | g in patches :: GitIntended(g, decode).Ok?
  }

  lemma TargetCount(block: seq<Line>, decode: Decoder)
    ensures var targets := SectionTargets(block, decode);
            targets.Ok? ==> |targets.value| <= if FirstAfter(block, "rename" + " to ").None? then 1 else 2
  {
    hide FirstAfter, ModeAfter, MovedPaths, PlainTargets;
    if FirstAfter(block, "rename" + " to ").None? { NothingMoves(block, "rename", decode); }
    forall mode, created
      ensures PlainTargets(block, mode, created, decode).Ok? ==> |PlainTargets(block, mode, created, decode).value| == 1
    {
      PlainIsOne(block, mode, created, decode);
    }
  }

  /** A section never gives more targets than its patch intends. */
  lemma TargetsAreFewer(g: GitPatch, tail: seq<Line>, decode: Decoder)
    requires Proper(g, decode) && AllBlank(tail) && GitIntended(g, decode).Ok?
    ensures var targets := SectionTargets(PrintGit(g) + tail, decode);
            targets.Ok? ==> |targets.value| <= |GitIntended(g, decode).value|
  {
    hide PrintHeaders, Headers, PrintBody, FirstAfter, ModeAfter, Proper, Unquote, StartsWith, AllBlank, SectionTargets;
    assert PrintGit(g) + tail == Section(g, tail);
    SectionReads(g, tail, decode);
    TargetCount(Section(g, tail), decode);
  }

  function Ending(patches: seq<GitPatch>, tail: seq<Line>): seq<Line> {
    if |patches| == 1 then tail else []
  }

  function LaterSections(patches: seq<GitPatch>, tail: seq<Line>): seq<seq<Line>>
    requires patches != []
  {
    if |patches| == 1 then [] else Trailed(PrintEachGit(patches[1..]), tail)
  }

  /** The sections of a diff are the first patch's and those of the others. */
  lemma SectionsSplit(patches: seq<GitPatch>, tail: seq<Line>)
    requires patches != [] && AllBlank(tail)
    ensures var first := PrintGit(patches[0]) + Ending(patches, tail);
            && Trailed(PrintEachGit(patches), tail) == [first] + LaterSections(patches, tail)
            && AllBlank(Ending(patches, tail)) && GitSection(first) && !AllBlank(first) &&
              FirstAfter(first, GIT_FILE).Some?
  {
    NothingIsBlank();
    hide PrintGit, AllBlank, GitSection, FirstAfter;
    var first, blocks := PrintGit(patches[0]) + Ending(patches, tail), Trailed(PrintEachGit(patches), tail);
    PrintsOneSection(patches[0], Ending(patches, tail));
    SectionIsNotBlank(first, []);
    assert first + [] == first;
    if |patches| == 1 {
      assert blocks == [first];
    } else {
      EachGitSplits(patches, tail);
      assert PrintGit(patches[0]) + [] == PrintGit(patches[0]);
      assert blocks == [blocks[0]] + blocks[1..];
    }
  }

  lemma {:induction false} SectionsOfGit(patches: seq<GitPatch>, tail: seq<Line>)
    requires patches != [] && AllBlank(tail)
    ensures forall block | block in Trailed(PrintEachGit(patches), tail) :: GitSection(block)
    ensures FirstAfter(Trailed(PrintEachGit(patches), tail)[0], GIT_FILE).Some?
    decreases |patches|
  {
    hide PrintGit, AllBlank, GitSection, FirstAfter, PrintEachGit, Trailed;
    SectionsSplit(patches, tail);
    if |patches| > 1 { SectionsOfGit(patches[1..], tail); }
  }

  /** Two lists that are no longer than two others give the same list only when they are the same. */
  lemma ThenIsEqual(a: Result<seq<Target>>, b: Result<seq<Target>>, c: Result<seq<Target>>, d: Result<seq<Target>>)
    requires c.Ok? && d.Ok? && (a.Ok? ==> |a.value| <= |c.value|) && (b.Ok? ==> |b.value| <= |d.value|)
    ensures Then(a, b).Ok? ==> |Then(a, b).value| <= |Then(c, d).value|
    ensures Then(a, b) == Then(c, d) <==> a == c && b == d
  {
    if a.Ok? && b.Ok? && Then(a, b) == Then(c, d) {
      assert |a.value| == |c.value|;
      assert a.value == (a.value + b.value)[..|a.value|] && b.value == (a.value + b.value)[|a.value|..];
      assert c.value == (c.value + d.value)[..|c.value|] && d.value == (c.value + d.value)[|c.value|..];
    }
  }

  lemma CollectFirst(first: seq<Line>, later: seq<seq<Line>>, decode: Decoder)
    requires !AllBlank(first)
    ensures Collect([first] + later, decode) == Then(SectionTargets(first, decode), Collect(later, decode))
  {
    hide AllBlank, SectionTargets;
    assert ([first] + later)[1..] == later;
  }

  /** What the sections of a diff give, one after the other. */
  lemma {:induction false} CollectGit(patches: seq<GitPatch>, tail: seq<Line>, decode: Decoder)
    requires patches != [] && (forall g | g in patches :: Proper(g, decode)) && AllBlank(tail)
    ensures var collected, intended := Collect(Trailed(PrintEachGit(patches), tail), decode),
            AllGitIntended(patches, decode);
            && ((forall g | g in patches :: ReadsRight(g)) ==> collected == intended)
            && (AllMeanSomething(patches, decode) ==>
                  && intended.Ok? && (collected.Ok? ==> |collected.value| <= |intended.value|)
                  && (collected == intended ==> forall g | g in patches :: ReadsRight(g)))
    decreases |patches|
  {
    hide PrintGit, SectionTargets, AllBlank, GitIntended, Proper, GitSection, FirstAfter, ReadsRight, Trailed,
         PrintEachGit,
         LaterSections;
    SectionsSplit(patches, tail);
    var g, rest, later := patches[0], patches[1..], LaterSections(patches, tail);
    var first := PrintGit(g) + Ending(patches, tail);
    assert patches == [g] + rest && g in patches;
    CollectFirst(first, later, decode);
    GitTargets(g, Ending(patches, tail), decode);
    CollectRest(patches, tail, decode);
    if AllMeanSomething(patches, decode) {
      TargetsAreFewer(g, Ending(patches, tail), decode);
      ThenIsEqual(SectionTargets(first, decode), Collect(later, decode), GitIntended(g, decode),
        AllGitIntended(rest, decode));
    }
  }

  lemma {:induction false} CollectRest(patches: seq<GitPatch>, tail: seq<Line>, decode: Decoder)
    requires patches != [] && (forall g | g in patches :: Proper(g, decode)) && AllBlank(tail)
    ensures var rest := patches[1..];
            var collected, intended := Collect(LaterSections(patches, tail), decode), AllGitIntended(rest, decode);
            && ((forall g | g in rest :: ReadsRight(g)) ==> collected == intended)
            && (AllMeanSomething(rest, decode) ==>
                  && intended.Ok? && (collected.Ok? ==> |collected.value| <= |intended.value|)
                  && (collected == intended ==> forall g | g in rest :: ReadsRight(g)))
    decreases |patches|, 0
  {
    hide PrintGit, SectionTargets, AllBlank, GitIntended, Proper, ReadsRight, Trailed, PrintEachGit;
    if |patches| > 1 { CollectGit(patches[1..], tail, decode); }
  }

  /** The manifest of a diff that git printed is what its patches intend, in order, exactly when each of them reads
    * right; text before the first patch that names no file makes it an error, unless that text is blank. */
  lemma GitManifestIsIntended(before: seq<Line>, patches: seq<GitPatch>, tail: seq<Line>, decode: Decoder)
    requires patches != [] && (forall g | g in patches :: Proper(g, decode)) && AllBlank(tail)
    requires Headless(before) && Nameless(before)
    ensures var manifest := Manifest(before + Concat(PrintEachGit(patches)) + tail, decode);
            var right := forall g | g in patches :: ReadsRight(g);
            if !AllBlank(before) then manifest == Err
            else
              && (right ==> manifest == AllGitIntended(patches, decode))
              && (AllMeanSomething(patches, decode) ==> (manifest == AllGitIntended(patches, decode) <==> right))
  {
    hide FirstAfter, AllBlank, SectionTargets, PrintEachGit, Proper, AllGitIntended, GitBlocks, Headless, GitSection,
         Concat, ReadsRight, AllMeanSomething;
    CollectGit(patches, tail, decode);
    SectionsOfGit(patches, tail);
    assert PrintEachGit(patches) != [] by { EachGitIsSome(patches); }
    var blocks := Trailed(PrintEachGit(patches), tail);
    ConcatTrailed(PrintEachGit(patches), tail);
    assert before + Concat(PrintEachGit(patches)) + tail == before + Concat(blocks);
    GitBlocksUndoConcat(before, blocks);
    HasSection(before, blocks);
    assert ([before] + blocks)[1..] == blocks;
    if !AllBlank(before) { NamelessIsRefused(before, decode); }
  }

  lemma HasSection(before: seq<Line>, blocks: seq<seq<Line>>)
    requires blocks != [] && GitSection(blocks[0]) && FirstAfter(blocks[0], GIT_FILE).Some?
    ensures var lines := before + Concat(blocks);
            !AllBlank(lines) && FirstAfter(lines, GIT_FILE).Some?
  {
    SectionIsNotBlank(blocks[0], Concat(blocks[1..]));
    FirstInConcat(blocks[0], Concat(blocks[1..]), GIT_FILE);
    FirstInConcat(before, Concat(blocks), GIT_FILE);
    hide FirstAfter, ModeAfter, GitSection, IsBlank;
    assert forall line | line in Concat(blocks) :: line in before + Concat(blocks);
  }

  lemma EachGitIsSome(patches: seq<GitPatch>)
    ensures |PrintEachGit(patches)| == |patches|
  {
  }
}
