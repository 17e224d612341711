/** The manifest of a unified diff: the files it intends to write and delete, read from the headers of its sections. */
module PatchManifest {
  import opened Prelude
  import opened UnifiedDiff

  datatype Op = Write | Delete

  datatype Target = Target(op: Op, path: string, mode: string, isNew: bool)

  // ---- text ----

  predicate IsSpace(c: char) {
    var code := c as int;
    code == 32 || 9 <= code <= 13 || 28 <= code <= 31
  }

  predicate IsBlank(line: Line) {
    forall i | 0 <= i < |line| :: IsSpace(line[i])
  }

  predicate AllBlank(lines: seq<Line>) {
    forall line | line in lines :: IsBlank(line)
  }

  function TrimLeft(s: string): string {
    if s != [] && IsSpace(s[0]) then TrimLeft(s[1..]) else s
  }

  function TrimRight(s: string): string {
    if s != [] && IsSpace(s[|s| - 1]) then TrimRight(s[..|s| - 1]) else s
  }

  function Strip(s: string): string {
    TrimRight(TrimLeft(s))
  }

  /** Nothing at either end is a blank. */
  predicate Trimmed(s: string) {
    s == "" || (!IsSpace(s[0]) && !IsSpace(s[|s| - 1]))
  }

  lemma {:induction false} LeftSplits(s: string) returns (lead: string)
    ensures s == lead + TrimLeft(s) && IsBlank(lead) && (TrimLeft(s) != "" ==> !IsSpace(TrimLeft(s)[0]))
    decreases |s|
  {
    if s != [] && IsSpace(s[0]) {
      var rest := LeftSplits(s[1..]);
      lead := [s[0]] + rest;
    } else {
      lead := [];
    }
  }

  lemma {:induction false} RightSplits(s: string) returns (trail: string)
    ensures s == TrimRight(s) + trail && IsBlank(trail)
    ensures TrimRight(s) != "" ==> !IsSpace(TrimRight(s)[|TrimRight(s)| - 1])
    decreases |s|
  {
    if s != [] && IsSpace(s[|s| - 1]) {
      var rest := RightSplits(s[..|s| - 1]);
      trail := rest + [s[|s| - 1]];
    } else {
      trail := [];
    }
  }

  lemma {:induction false} RightKeepsFirst(s: string)
    requires s != "" && !IsSpace(s[0])
    ensures TrimRight(s) != "" && TrimRight(s)[0] == s[0]
    decreases |s|
  {
    if IsSpace(s[|s| - 1]) { RightKeepsFirst(s[..|s| - 1]); }
  }

  /** Stripping takes the blanks off both ends, and nothing else. */
  lemma StripSplits(s: string) returns (lead: string, trail: string)
    ensures s == lead + Strip(s) + trail && IsBlank(lead) && IsBlank(trail) && Trimmed(Strip(s))
    ensures Strip(s) == "" <==> IsBlank(s)
  {
    lead := LeftSplits(s);
    trail := RightSplits(TrimLeft(s));
    if TrimLeft(s) != "" {
      RightKeepsFirst(TrimLeft(s));
      assert s[|lead|] == TrimLeft(s)[0];
    }
  }

  lemma StripIff(s: string)
    ensures Strip(s) == s <==> Trimmed(s)
  {
    var lead, trail := StripSplits(s);
  }

  function StripQuotes(s: string): string {
    if s != [] && s[0] == '"' then StripQuotes(s[1..])
    else if s != [] && s[|s| - 1] == '"' then StripQuotes(s[..|s| - 1])
    else s
  }

  function BeforeTab(s: string): string {
    if s == [] || s[0] == '\t' then [] else [s[0]] + BeforeTab(s[1..])
  }

  /** What follows the marker on the first line that starts with it and goes on. */
  function FirstAfter(block: seq<Line>, marker: string): (rest: Option<string>)
    ensures rest.Some? ==> rest.value != []
  {
    if block == [] then None
    else if StartsWith(block[0], marker) && |block[0]| > |marker| then Some(block[0][|marker|..])
    else FirstAfter(block[1..], marker)
  }

  /** The digits on the first line that is the marker and digits only. */
  function ModeAfter(block: seq<Line>, marker: string): Option<string> {
    if block == [] then None
    else if StartsWith(block[0], marker) && |block[0]| > |marker| &&
      DigitSpan(block[0][|marker|..]) == |block[0]| - |marker|
    then Some(block[0][|marker|..])
    else ModeAfter(block[1..], marker)
  }

  predicate StandsAt(s: string, p: string, i: int) {
    0 <= i && i + |p| <= |s| && s[i..i + |p|] == p
  }

  /** The last place at or before `from` where `p` stands in `s`; -1 if there is none. */
  function LastAt(s: string, p: string, from: int): (at: int)
    ensures at == -1 || (at <= from && StandsAt(s, p, at))
    ensures forall i | at < i <= from :: !StandsAt(s, p, i)
    decreases from + 1
  {
    if from < 0 then -1 else if StandsAt(s, p, from) then from else LastAt(s, p, from - 1)
  }

  // ---- header paths ----

  /** A quoted path decoded, which may fail; an unquoted one as it is. */
  function Unquote(raw: string, decode: Decoder): Result<string> {
    if |raw| < 2 || raw[0] != '"' || raw[|raw| - 1] != '"' then Ok(raw) else decode(raw)
  }

  /** The path that a header names: up to a tab, without the blanks around it, decoded when quoted. */
  function Named(text: string, decode: Decoder): Result<string> {
    Unquote(Strip(BeforeTab(text)), decode)
  }

  function HeaderPath(block: seq<Line>, marker: string, decode: Decoder): Result<string> {
    match FirstAfter(block, marker)
    case None => Ok("")
    case Some(rest) => Named(rest, decode)
  }

  function Both(a: Result<string>, b: Result<string>): Result<(string, string)> {
    match (a, b)
    case (Ok(was), Ok(now)) => Ok((was, now))
    case _ => Err
  }

  /** Both names on the `diff --git` line of a rename or copy, found by the name it moves to. */
  function MovedPaths(block: seq<Line>, verb: string, decode: Decoder): Result<(string, string)> {
    match (FirstAfter(block, verb + " to "), FirstAfter(block, GIT_FILE))
    case (Some(destination), Some(line)) =>
      var name := StripQuotes(Strip(destination));
      var at := LastAt(line, name, |line| - |name|);
      var cut := if at > 0 then LastAt(line, " ", at - 1) else -1;
      if cut <= 0 then Ok(("", ""))
      else Both(Unquote(line[..cut], decode), Unquote(line[cut + 1..], decode))
    case _ => Ok(("", ""))
  }

  /** What follows the first slash, if there is one. */
  function Below(path: string): Option<string> {
    if path == [] then None else if path[0] == '/' then Some(path[1..]) else Below(path[1..])
  }

  /** Whether two names are one path: equal, or equal below their first component. */
  predicate SamePath(was: string, now: string) {
    was == now || (Below(was).Some? && Below(was) == Below(now))
  }

  /** The second of two names that are one path, split at the first space from `at` on that makes them so. */
  function SecondName(names: string, at: nat): string
    requires at <= |names|
    decreases |names| - at
  {
    if at == |names| then ""
    else if names[at] == ' ' && SamePath(names[..at], names[at + 1..]) then names[at + 1..]
    else SecondName(names, at + 1)
  }

  method FindSecondName(names: string) returns (name: string)
    ensures name == SecondName(names, 0)
  {
    for at := 0 to |names|
      invariant SecondName(names, at) == SecondName(names, 0)
    {
      if names[at] == ' ' && SamePath(names[..at], names[at + 1..]) {
        return names[at + 1..];
      }
    }
    name := "";
  }

  /** Where a quoted name that starts at the given place ends, past its closing quote. */
  function QuotedEnd(s: string, i: nat): Option<nat>
    decreases |s| - i
  {
    if i >= |s| then None
    else if s[i] == '"' then Some(i + 1)
    else if s[i] == '\\' then QuotedEnd(s, i + 2)
    else QuotedEnd(s, i + 1)
  }

  /** Where ` "` first stands at or after `i`. */
  function QuoteAt(s: string, i: nat): Option<nat>
    decreases |s| - i
  {
    if i + 1 >= |s| then None else if s[i] == ' ' && s[i + 1] == '"' then Some(i) else QuoteAt(s, i + 1)
  }

  /** The new-side name on a section's `diff --git` line; empty when it has none to give. */
  function GitNewName(block: seq<Line>, decode: Decoder): Result<string> {
    match FirstAfter(block, GIT_FILE)
    case None => Ok("")
    case Some(names) =>
      var quoted := if names[..1] == "\"" then QuotedEnd(names, 1) else None;
      if quoted.Some? && quoted.value <= |names| then Unquote(TrimLeft(names[quoted.value..]), decode)
      else match QuoteAt(names, 0)
        case Some(at) => if at < |names| then Unquote(names[at + 1..], decode) else Err
        case None => Ok(SecondName(names, 0))
  }

  // ---- targets ----

  function LastFour(s: string): string {
    if |s| <= 4 then s else s[|s| - 4..]
  }

  /** The targets of a section that neither renames nor copies. */
  function PlainTargets(block: seq<Line>, mode: string, created: bool, decode: Decoder): Result<seq<Target>> {
    match (HeaderPath(block, OLD_FILE, decode), HeaderPath(block, NEW_FILE, decode))
    case (Ok(minus), Ok(plus)) =>
      var deletes := plus == DEV_NULL || exists line :: line in block && StartsWith(line, "deleted file mode");
      var named := if deletes then minus else plus;
      (match if named != "" then Ok(named) else GitNewName(block, decode)
       case Err => Err
       case Ok(path) =>
         if path == "" || (deletes && path == DEV_NULL) then Err
         else if deletes then Ok([Target(Delete, path, "", false)])
         else Ok([Target(Write, path, mode, minus == DEV_NULL || created)]))
    case _ => Err
  }

  function SectionTargets(block: seq<Line>, decode: Decoder): Result<seq<Target>> {
    var created := ModeAfter(block, "new file mode ");
    var changed := if created.Some? then created else ModeAfter(block, "new mode ");
    var mode := if changed.Some? then LastFour(changed.value) else "";
    match (MovedPaths(block, "rename", decode), MovedPaths(block, "copy", decode))
    case (Err, _) => Err
    case (Ok(renamed), copied) =>
      if renamed.0 != "" && renamed.1 != ""
      then Ok([Target(Delete, renamed.0, "", false), Target(Write, renamed.1, mode, true)])
      else match copied
        case Err => Err
        case Ok(pair) =>
          if pair.1 != "" then Ok([Target(Write, pair.1, mode, true)])
          else PlainTargets(block, mode, created.Some?, decode)
  }

  /** A diff with `diff --git` lines, cut before each of them. */
  function GitBlocks(lines: seq<Line>): (blocks: seq<seq<Line>>)
    ensures blocks != []
  {
    if lines == [] then [[]]
    else
      var rest := GitBlocks(lines[1..]);
      if StartsWith(lines[0], GIT_FILE) then [[], [lines[0]] + rest[0]] + rest[1..]
        else [[lines[0]] + rest[0]] + rest[1..]
  }

  function Collect(blocks: seq<seq<Line>>, decode: Decoder): Result<seq<Target>> {
    if blocks == [] then Ok([])
    else if AllBlank(blocks[0]) then Collect(blocks[1..], decode)
    else match (SectionTargets(blocks[0], decode), Collect(blocks[1..], decode))
      case (Ok(first), Ok(rest)) => Ok(first + rest)
      case _ => Err
  }

  function Manifest(lines: seq<Line>, decode: Decoder): Result<seq<Target>> {
    if AllBlank(lines) then Err
    else Collect(if FirstAfter(lines, GIT_FILE).Some? then GitBlocks(lines) else SectionsOf(lines), decode)
  }

  // ---- the names on a `diff --git` line ----

  predicate Lacks(s: string, c: char) {
    forall i | 0 <= i < |s| :: s[i] != c
  }

  lemma {:induction false} BelowFirst(component: string, rest: string)
    requires Lacks(component, '/')
    ensures Below(component + "/" + rest) == Some(rest)
    decreases |component|
  {
    var path := component + "/" + rest;
    if component == [] {
      assert path == "/" + rest && path[1..] == rest;
    } else {
      assert path[1..] == component[1..] + "/" + rest;
      BelowFirst(component[1..], rest);
    }
  }

  /** What is below the first slash of text that ends in `component/path` is no shorter than the path. */
  lemma {:induction false} BelowIsLong(front: string, component: string, path: string)
    ensures var s := front + component + "/" + path;
            Below(s).Some? && |Below(s).value| >= |path|
    decreases |front| + |component|
  {
    var s := front + component + "/" + path;
    if front != [] {
      assert s[1..] == front[1..] + component + "/" + path;
      if s[0] != '/' { BelowIsLong(front[1..], component, path); }
    } else if component != [] {
      assert s[1..] == [] + component[1..] + "/" + path;
      if s[0] != '/' { BelowIsLong([], component[1..], path); }
    } else {
      assert s[0] == '/' && s[1..] == path;
    }
  }

  /** The line `p/P q/P`. */
  function TwoNames(p: string, q: string, path: string): string {
    p + "/" + path + " " + q + "/" + path
  }

  /** No space inside the first name splits the line into two names of one path. */
  lemma EarlySplit(p: string, q: string, path: string, k: nat)
    requires Lacks(p, '/') && k < |path| && path[k] == ' '
    ensures !SamePath(p + "/" + path[..k], path[k + 1..] + " " + q + "/" + path)
  {
    BelowFirst(p, path[..k]);
    BelowIsLong(path[k + 1..] + " ", q, path);
    assert path[k + 1..] + " " + q + "/" + path == (path[k + 1..] + " ") + q + "/" + path;
  }

  lemma CutInside(p: string, q: string, path: string, k: nat)
    requires k < |path|
    ensures var names, at := TwoNames(p, q, path), |p| + 1 + k;
            && at < |names| && names[at] == path[k]
            && names[..at] == p + "/" + path[..k] && names[at + 1..] == path[k + 1..] + " " + q + "/" + path
  {
    var names, at := TwoNames(p, q, path), |p| + 1 + k;
    var front, back := p + "/" + path[..k], path[k + 1..] + " " + q + "/" + path;
    assert path == path[..k] + [path[k]] + path[k + 1..];
    assert names == front + [path[k]] + back;
  }

  lemma CutBetween(p: string, q: string, path: string)
    ensures var names, at := TwoNames(p, q, path), |p| + 1 + |path|;
            && at < |names| && names[at] == ' ' && names[..at] == p + "/" + path && names[at + 1..] == q + "/" + path
  {
    var names := TwoNames(p, q, path);
    assert names == (p + "/" + path) + " " + (q + "/" + path);
  }

  lemma CutInPrefix(p: string, q: string, path: string, at: nat)
    requires Lacks(p, ' ') && at <= |p|
    ensures at < |TwoNames(p, q, path)| && TwoNames(p, q, path)[at] != ' '
  {
    var rest := path + " " + q + "/" + path;
    assert TwoNames(p, q, path) == (p + "/") + rest;
    assert TwoNames(p, q, path)[at] == (p + "/")[at];
  }

  lemma NotHere(names: string, at: nat)
    requires at < |names| && (names[at] != ' ' || !SamePath(names[..at], names[at + 1..]))
    ensures SecondName(names, at) == SecondName(names, at + 1)
  {
    hide SamePath;
  }

  lemma Here(names: string, at: nat)
    requires at < |names| && names[at] == ' ' && SamePath(names[..at], names[at + 1..])
    ensures SecondName(names, at) == names[at + 1..]
  {
    hide SamePath;
  }

  lemma {:induction false} SplitsFrom(p: string, q: string, path: string, at: nat)
    requires Lacks(p, '/') && Lacks(p, ' ') && Lacks(q, '/') && at <= |p| + 1 + |path|
    ensures at <= |TwoNames(p, q, path)| && SecondName(TwoNames(p, q, path), at) == q + "/" + path
    decreases |p| + 1 + |path| - at
  {
    hide TwoNames, Below, SecondName, Lacks;
    var names := TwoNames(p, q, path);
    if at == |p| + 1 + |path| {
      CutBetween(p, q, path);
      BelowFirst(p, path);
      BelowFirst(q, path);
      Here(names, at);
    } else {
      SplitsFrom(p, q, path, at + 1);
      if at > |p| {
        CutInside(p, q, path, at - |p| - 1);
        if path[at - |p| - 1] == ' ' { EarlySplit(p, q, path, at - |p| - 1); }
      } else {
        CutInPrefix(p, q, path, at);
      }
      NotHere(names, at);
    }
  }

  /** For every path, spaces included, the header with the path under two prefixes names the path under the second. */
  lemma PrefixedHeaderName(p: string, q: string, path: string)
    requires Lacks(p, '/') && Lacks(p, ' ') && Lacks(q, '/')
    ensures SecondName(TwoNames(p, q, path), 0) == q + "/" + path
  {
    SplitsFrom(p, q, path, 0);
  }

  /** Below the first slash of a path cut short lies less, and of a path with text before it no less. */
  lemma {:induction false} BelowCut(path: string, k: nat)
    requires k < |path| && Below(path[..k]).Some?
    ensures Below(path).Some? && |Below(path[..k]).value| < |Below(path).value|
    decreases |path|
  {
    assert k > 0 && path[..k][0] == path[0] && path[..k][1..] == path[1..][..k - 1];
    if path[0] != '/' { BelowCut(path[1..], k - 1); }
  }

  lemma {:induction false} BelowAfter(front: string, path: string)
    requires Below(path).Some?
    ensures Below(front + path).Some? && |Below(front + path).value| >= |Below(path).value|
    decreases |front|
  {
    if front == [] {
      assert front + path == path;
    } else {
      assert (front + path)[1..] == front[1..] + path;
      BelowIsShorter(path);
      if front[0] != '/' { BelowAfter(front[1..], path); }
    }
  }

  lemma {:induction false} BelowIsShorter(path: string)
    ensures Below(path).Some? ==> |Below(path).value| < |path|
    decreases |path|
  {
    if path != [] { BelowIsShorter(path[1..]); }
  }

  lemma {:induction false} RepeatedSplitsFrom(path: string, at: nat)
    requires at <= |path|
    ensures SecondName(path + " " + path, at) == path
    decreases |path| - at
  {
    var names := path + " " + path;
    if at == |path| {
      assert names[..at] == path && names[at + 1..] == path;
    } else {
      RepeatedSplitsFrom(path, at + 1);
      var front := path[at + 1..] + " ";
      assert names[..at] == path[..at] && names[at + 1..] == front + path;
      if Below(path[..at]).Some? {
        BelowCut(path, at);
        BelowAfter(front, path);
      }
    }
  }

  /** For every path the header that names it twice without prefixes names it. */
  lemma UnprefixedHeaderName(path: string)
    ensures SecondName(path + " " + path, 0) == path
  {
    RepeatedSplitsFrom(path, 0);
  }

  lemma {:induction false} NoQuote(s: string, i: nat)
    requires Lacks(s, '"')
    ensures QuoteAt(s, i) == None
    decreases |s| - i
  {
    if i + 1 < |s| { NoQuote(s, i + 1); }
  }

  lemma CutBeforePrefix(source: string, prefix: string, name: string, tail: string)
    requires Lacks(prefix, ' ') && source != "" && name != "" && Lacks(tail, name[|name| - 1])
    ensures var line := source + " " + prefix + name + tail;
            var at := |source| + 1 + |prefix|;
            && LastAt(line, name, |line| - |name|) == at && LastAt(line, " ", at - 1) == |source|
            && line[..|source|] == source && line[|source| + 1..] == prefix + name + tail
  {
    hide Lacks, LastAt, StandsAt;
    var line := source + " " + prefix + name + tail;
    var at := |source| + 1 + |prefix|;
    Middle(source, " ", prefix + name + tail);
    Middle(source + " " + prefix, name, tail);
    assert line == source + " " + (prefix + name + tail);
    assert source + " " + prefix + (name + tail) == line;
    forall i | |source| < i < at ensures !StandsAt(line, " ", i) { NoSpaceIn(source + " ", prefix, name + tail, i); }
    forall i | at < i <= |line| - |name| ensures !StandsAt(line, name, i) {
      NotInTail(source + " " + prefix, name, tail, i);
    }
    LastIs(line, name, |line| - |name|, at);
    LastIs(line, " ", at - 1, |source|);
  }

  lemma LastIs(s: string, p: string, from: int, at: int)
    requires at <= from && StandsAt(s, p, at) && forall i | at < i <= from :: !StandsAt(s, p, i)
    ensures LastAt(s, p, from) == at
  {
  }

  lemma NoSpaceIn(front: string, middle: string, back: string, i: nat)
    requires Lacks(middle, ' ') && |front| <= i < |front| + |middle|
    ensures !StandsAt(front + middle + back, " ", i)
  {
    assert (front + middle + back)[i] == middle[i - |front|];
    NotStanding(front + middle + back, i);
  }

  lemma NotInTail(front: string, name: string, tail: string, i: nat)
    requires name != "" && Lacks(tail, name[|name| - 1]) && |front| < i <= |front| + |tail|
    ensures !StandsAt(front + name + tail, name, i)
  {
    var line, last := front + name + tail, i + |name| - 1;
    assert line[i..i + |name|][|name| - 1] == line[last] == tail[last - |front| - |name|];
  }

  lemma Middle(a: string, b: string, c: string)
    ensures var s := a + b + c;
            s[..|a|] == a && s[|a|..|a| + |b|] == b && s[|a| + |b|..] == c && StandsAt(s, b, |a|)
  {
  }

  lemma NotStanding(s: string, i: nat)
    requires i < |s| && s[i] != ' '
    ensures !StandsAt(s, " ", i)
  {
    assert s[i..i + 1] == [s[i]];
  }

  /** A rename or copy is found by the name it goes to, less what is around that name. */
  lemma MovedPathsOf(block: seq<Line>, verb: string, destination: string, source: string, prefix: string, name: string,
                     tail: string, decode: Decoder)
    requires FirstAfter(block, verb + " to ") == Some(destination) && StripQuotes(Strip(destination)) == name
    requires FirstAfter(block, GIT_FILE) == Some(source + " " + prefix + name + tail)
    requires Lacks(prefix, ' ') && source != "" && name != "" && Lacks(tail, name[|name| - 1])
    ensures MovedPaths(block, verb, decode) == Both(Unquote(source, decode), Unquote(prefix + name + tail, decode))
  {
    hide FirstAfter, Strip, LastAt, GIT_FILE, StripQuotes, Unquote, Lacks;
    CutBeforePrefix(source, prefix, name, tail);
  }

  // ---- sections of a diff with `diff --git` lines ----

  ghost predicate Headless(lines: seq<Line>) {
    forall i | 0 <= i < |lines| :: !StartsWith(lines[i], GIT_FILE)
  }

  ghost predicate GitSection(block: seq<Line>) {
    block != [] && StartsWith(block[0], GIT_FILE) && Headless(block[1..])
  }

  function Concat(blocks: seq<seq<Line>>): seq<Line> {
    if blocks == [] then [] else blocks[0] + Concat(blocks[1..])
  }

  /** Cutting a diff before its `diff --git` lines undoes putting its sections together. */
  lemma {:induction false} GitBlocksUndoConcat(before: seq<Line>, blocks: seq<seq<Line>>)
    requires Headless(before) && forall block | block in blocks :: GitSection(block)
    ensures GitBlocks(before + Concat(blocks)) == [before] + blocks
    decreases |Concat(blocks)|, |before|
  {
    hide StartsWith;
    var lines := before + Concat(blocks);
    if before != [] {
      assert lines[1..] == before[1..] + Concat(blocks);
      GitBlocksUndoConcat(before[1..], blocks);
      assert [before[0]] + before[1..] == before;
    } else if blocks != [] {
      var block, rest := blocks[0], blocks[1..];
      assert GitSection(block);
      assert lines == block + Concat(rest) && lines[1..] == block[1..] + Concat(rest);
      GitBlocksUndoConcat(block[1..], rest);
      assert [block[0]] + block[1..] == block;
      assert [[], block] + rest == [before] + blocks;
    }
  }

  // ---- the manifest of a printed diff ----

  predicate NoLetter(line: Line) {
    line == [] || !('a' <= line[0] <= 'z')
  }

  lemma NotWord(line: Line, word: string)
    requires NoLetter(line) && word != [] && 'a' <= word[0] <= 'z'
    ensures !StartsWith(line, word)
  {
    FirstChar(line, word);
  }

  lemma {:induction false} NoneAfter(block: seq<Line>, marker: string)
    requires marker != [] && 'a' <= marker[0] <= 'z' && forall line | line in block :: NoLetter(line)
    ensures FirstAfter(block, marker) == None && ModeAfter(block, marker) == None
    decreases |block|
  {
    if block != [] {
      assert block[0] in block;
      NotWord(block[0], marker);
      NoneAfter(block[1..], marker);
    }
  }

  lemma {:induction false} HunksNoLetter(hunks: seq<Hunk>)
    ensures forall line | line in PrintHunks(hunks) :: NoLetter(line)
    decreases |hunks|
  {
    if hunks != [] {
      HunkNoLetter(hunks[0]);
      HunksNoLetter(hunks[1..]);
      hide PrintHunk;
    }
  }

  lemma HunkNoLetter(h: Hunk)
    ensures forall line | line in PrintHunk(h) :: NoLetter(line)
  {
    HeaderParses(h);
    hide HunkHeader, PrintLine;
    forall line | line in PrintHunk(h) ensures NoLetter(line) {
      if line != HunkHeader(h) {
        var i :| 0 <= i < |h.body| && line == PrintLine(h.body[i]);
        LineNoLetter(h.body[i]);
      }
    }
  }

  lemma LineNoLetter(b: BodyLine)
    ensures NoLetter(PrintLine(b))
  {
  }

  lemma {:induction false} BeforeTabOf(path: string, time: Option<string>)
    ensures BeforeTab(Stamped(path, time)) == BeforeTab(path)
    decreases |path|
  {
    var s := Stamped(path, time);
    if path != [] {
      assert s[1..] == Stamped(path[1..], time);
      BeforeTabOf(path[1..], time);
    }
  }

  lemma {:induction false} NoTab(path: string)
    requires Lacks(path, '\t')
    ensures BeforeTab(path) == path
    decreases |path|
  {
    if path != [] { NoTab(path[1..]); }
  }

  /** A header without quotes is read as its path exactly when no blank surrounds the path. */
  lemma NamedIffTrimmed(path: string, decode: Decoder)
    requires Lacks(path, '\t') && Lacks(path, '"')
    ensures Named(path, decode) == Ok(path) <==> Trimmed(path)
  {
    NamedBare(path, decode);
    StripIff(path);
  }

  lemma NamedBare(path: string, decode: Decoder)
    requires Lacks(path, '\t') && Lacks(path, '"')
    ensures Named(path, decode) == Ok(Strip(path))
  {
    NoTab(path);
    var lead, trail := StripSplits(path);
    hide Strip, BeforeTab;
    if Strip(path) != "" { assert path[|lead|] == Strip(path)[0]; }
  }

  /** So the header of a file whose name ends in a blank, which git prints without quotes, names another file. */
  lemma BlankIsLost(decode: Decoder)
    ensures Named("b/x ", decode) == Ok("b/x")
  {
    NoTab("b/x ");
    assert "b/x "[..3] == "b/x";
  }

  lemma ReadPath(block: seq<Line>, marker: string, path: string, time: Option<string>, decode: Decoder)
    requires FirstAfter(block, marker) == Some(Stamped(path, time))
    ensures HeaderPath(block, marker, decode) == Named(path, decode)
  {
    hide FirstAfter, Strip, Stamped;
    BeforeTabOf(path, time);
  }

  /** A file patch whose headers have something to name. */
  ghost predicate HasNames(f: FilePatch) {
    f.before != "" && f.after != ""
  }

  /** What a file patch intends: one write, new or not, or one delete; nothing when a name does not decode, or when it
    * goes to no name, or from no file to no file. */
  function Intended(f: FilePatch, decode: Decoder): Result<seq<Target>> {
    match (Named(f.before, decode), Named(f.after, decode))
    case (Ok(was), Ok(now)) =>
      if now == DEV_NULL then (if was == "" || was == DEV_NULL then Err else Ok([Target(Delete, was, "", false)]))
      else if now == "" then Err
      else Ok([Target(Write, now, "", was == DEV_NULL)])
    case _ => Err
  }

  /** A path as headers print it without quotes: not empty, no tab, no surrounding blanks, no quotes. */
  ghost predicate Plain(path: string) {
    path != "" && Lacks(path, '\t') && Lacks(path, '"') && Trimmed(path)
  }

  lemma PlainIntended(f: FilePatch, decode: Decoder)
    requires Plain(f.before) && Plain(f.after) && (f.before != DEV_NULL || f.after != DEV_NULL)
    ensures Intended(f, decode) == Ok([if f.after == DEV_NULL then Target(Delete, f.before, "", false)
                                       else Target(Write, f.after, "", f.before == DEV_NULL)])
  {
    hide Named, Strip, Lacks;
    NamedIffTrimmed(f.before, decode);
    NamedIffTrimmed(f.after, decode);
  }

  /** In order, what all of them intend; nothing when one of them intends nothing. */
  function AllIntended(files: seq<FilePatch>, decode: Decoder): Result<seq<Target>> {
    if files == [] then Ok([])
    else match (Intended(files[0], decode), AllIntended(files[1..], decode))
      case (Ok(first), Ok(rest)) => Ok(first + rest)
      case _ => Err
  }

  lemma HeadersOf(f: FilePatch, tail: seq<Line>)
    requires HasNames(f)
    ensures var block := PrintFile(f) + tail;
            && FirstAfter(block, OLD_FILE) == Some(Stamped(f.before, f.beforeTime))
            && FirstAfter(block, NEW_FILE) == Some(Stamped(f.after, f.afterTime))
  {
    var block, was, now := PrintFile(f) + tail, Stamped(f.before, f.beforeTime), Stamped(f.after, f.afterTime);
    hide PrintHunks;
    assert block[0] == OLD_FILE + was && block[1] == NEW_FILE + now && block[1..][0] == block[1];
    StartOf(OLD_FILE, was);
    StartOf(NEW_FILE, now);
    assert !StartsWith(block[0], NEW_FILE) by { assert block[0][..4][0] == '-' && NEW_FILE[0] == '+'; }
    hide StartsWith;
  }

  lemma FileNoLetter(f: FilePatch, tail: seq<Line>)
    requires AllBlank(tail)
    ensures forall line | line in PrintFile(f) + tail :: NoLetter(line)
  {
    HunksNoLetter(f.hunks);
    hide PrintHunks;
    assert forall line | line in tail :: NoLetter(line) by {
      assert forall line | line in tail :: line == [] || IsSpace(line[0]);
    }
  }

  /** A section without any header that git adds is read from its two file headers. */
  lemma HeaderedTargets(block: seq<Line>, decode: Decoder)
    requires FirstAfter(block, GIT_FILE) == None && ModeAfter(block, "new file mode ") == None &&
             ModeAfter(block, "new mode ") == None
    requires FirstAfter(block, "rename" + " to ") == None && FirstAfter(block, "copy" + " to ") == None
    requires forall line | line in block :: !StartsWith(line, "deleted file mode")
    ensures SectionTargets(block, decode) ==
            match (HeaderPath(block, OLD_FILE, decode), HeaderPath(block, NEW_FILE, decode))
            case (Ok(was), Ok(now)) =>
              if now == DEV_NULL then (if was == "" || was == DEV_NULL then Err
                else Ok([Target(Delete, was, "", false)]))
              else if now == "" then Err
              else Ok([Target(Write, now, "", was == DEV_NULL)])
            case _ => Err
  {
    hide FirstAfter, ModeAfter, HeaderPath, StartsWith;
  }

  lemma FileTargets(f: FilePatch, tail: seq<Line>, decode: Decoder)
    requires HasNames(f) && AllBlank(tail)
    ensures SectionTargets(PrintFile(f) + tail, decode) == Intended(f, decode)
  {
    var block := PrintFile(f) + tail;
    HeadersOf(f, tail);
    FileNoLetter(f, tail);
    hide PrintFile, FirstAfter, ModeAfter, HeaderPath, Named, AllBlank, Stamped, SectionTargets, StartsWith, NoLetter;
    NoneAfter(block, GIT_FILE);
    NoneAfter(block, "new file mode ");
    NoneAfter(block, "new mode ");
    NoneAfter(block, "rename" + " to ");
    NoneAfter(block, "copy" + " to ");
    ReadPath(block, OLD_FILE, f.before, f.beforeTime, decode);
    ReadPath(block, NEW_FILE, f.after, f.afterTime, decode);
    forall line | line in block ensures !StartsWith(line, "deleted file mode") { NotWord(line, "deleted file mode"); }
    HeaderedTargets(block, decode);
  }

  lemma FileIsNotBlank(f: FilePatch, tail: seq<Line>)
    ensures !AllBlank(PrintFile(f) + tail)
  {
    var block := PrintFile(f) + tail;
    assert block[0] in block && block[0][0] == '-';
  }

  lemma {:induction false} CollectFiles(files: seq<FilePatch>, tail: seq<Line>, decode: Decoder)
    requires files != [] && (forall f | f in files :: HasNames(f)) && AllBlank(tail)
    ensures Collect(Trailed(PrintEach(files), tail), decode) == AllIntended(files, decode)
    decreases |files|
  {
    hide PrintFile, SectionTargets, AllBlank, Intended;
    var f, blocks := files[0], Trailed(PrintEach(files), tail);
    if |files| == 1 {
      assert blocks == [PrintFile(f) + tail];
      FileTargets(f, tail, decode);
      FileIsNotBlank(f, tail);
      assert Collect(blocks[1..], decode) == AllIntended(files[1..], decode) == Ok([]);
    } else {
      EachSplits(files, tail);
      CollectFiles(files[1..], tail, decode);
      assert PrintFile(f) + [] == PrintFile(f);
      assert AllBlank([]) by { assert forall line: Line :: line !in []; NothingIsBlank(); }
      FileTargets(f, [], decode);
      FileIsNotBlank(f, []);
    }
  }

  lemma NothingIsBlank()
    ensures AllBlank([])
  {
  }

  lemma EachSplits(files: seq<FilePatch>, tail: seq<Line>)
    requires |files| > 1
    ensures var blocks := Trailed(PrintEach(files), tail);
            blocks[0] == PrintFile(files[0]) && blocks[1..] == Trailed(PrintEach(files[1..]), tail)
  {
    hide PrintFile;
    assert PrintEach(files)[1..] == PrintEach(files[1..]);
  }

  /** Lines without any of the headers that name a file. */
  ghost predicate Nameless(lines: seq<Line>) {
    && FirstAfter(lines, GIT_FILE) == None && FirstAfter(lines, NEW_FILE) == None && FirstAfter(lines, OLD_FILE) == None
    && FirstAfter(lines, "rename to ") == None && FirstAfter(lines, "copy to ") == None
  }

  lemma NamelessIsRefused(block: seq<Line>, decode: Decoder)
    requires Nameless(block)
    ensures SectionTargets(block, decode) == Err
  {
    hide FirstAfter, ModeAfter, StartsWith;
    assert "rename" + " to " == "rename to " && "copy" + " to " == "copy to ";
  }

  lemma {:induction false} NoneInConcat(a: seq<Line>, b: seq<Line>, marker: string)
    requires FirstAfter(a, marker) == None && FirstAfter(b, marker) == None
    ensures FirstAfter(a + b, marker) == None
    decreases |a|
  {
    if a == [] {
      assert a + b == b;
    } else {
      assert (a + b)[1..] == a[1..] + b;
      NoneInConcat(a[1..], b, marker);
    }
  }

  lemma {:induction false} NoGitHeader(files: seq<FilePatch>, tail: seq<Line>)
    requires AllBlank(tail)
    ensures FirstAfter(PrintAll(files) + tail, GIT_FILE) == None
    decreases |files|
  {
    hide PrintFile, AllBlank;
    if files == [] {
      assert PrintAll(files) + tail == tail;
      BlankNoLetter(tail);
      NoneAfter(tail, GIT_FILE);
    } else {
      NothingIsBlank();
      FileNoLetter(files[0], []);
      assert PrintFile(files[0]) + [] == PrintFile(files[0]);
      NoneAfter(PrintFile(files[0]), GIT_FILE);
      NoGitHeader(files[1..], tail);
      NoneInConcat(PrintFile(files[0]), PrintAll(files[1..]) + tail, GIT_FILE);
      assert PrintAll(files) + tail == PrintFile(files[0]) + (PrintAll(files[1..]) + tail);
    }
  }

  lemma BlankNoLetter(lines: seq<Line>)
    requires AllBlank(lines)
    ensures forall line | line in lines :: NoLetter(line)
    ensures Outside(lines)
  {
    forall line | line in lines ensures NoLetter(line) && !StartsWith(line, OLD_FILE) && ParseHunk(line) == None {
      assert line == [] || IsSpace(line[0]);
      OtherLine(line);
    }
  }

  lemma PrintedSections(before: seq<Line>, files: seq<FilePatch>, tail: seq<Line>, decode: Decoder)
    requires files != [] && AllBlank(tail) && Outside(before) && FirstAfter(before, GIT_FILE) == None
    ensures Manifest(before + PrintAll(files) + tail, decode) ==
            Collect([before] + Trailed(PrintEach(files), tail), decode)
  {
    hide FirstAfter, AllBlank, Collect, PrintAll, PrintEach, SectionsOf, Outside, StartsWith, GIT_FILE;
    var lines := before + PrintAll(files) + tail;
    assert lines == before + (PrintAll(files) + tail);
    BlankNoLetter(tail);
    SomeLine(before, files, tail);
    NoGitHeader(files, tail);
    NoneInConcat(before, PrintAll(files) + tail, GIT_FILE);
    SplitUndoesPrint(before, files, tail);
    EachIsSome(files);
    assert Trailed([before] + PrintEach(files), tail) == [before] + Trailed(PrintEach(files), tail);
  }

  /** The manifest of a printed diff is exactly the writes and deletes its files intend; text before the first file that
    * names no file makes it an error, unless that text is blank. */
  lemma ManifestIsIntended(before: seq<Line>, files: seq<FilePatch>, tail: seq<Line>, decode: Decoder)
    requires files != [] && (forall f | f in files :: HasNames(f)) && AllBlank(tail) && Outside(before) &&
             Nameless(before)
    ensures Manifest(before + PrintAll(files) + tail, decode) ==
            if AllBlank(before) then AllIntended(files, decode) else Err
  {
    hide FirstAfter, AllBlank, SectionTargets, PrintAll, PrintEach, Outside, Manifest, Trailed, HasNames, AllIntended;
    PrintedSections(before, files, tail, decode);
    EachIsSome(files);
    CollectFiles(files, tail, decode);
    var rest := Trailed(PrintEach(files), tail);
    assert ([before] + rest)[1..] == rest;
    if !AllBlank(before) { NamelessIsRefused(before, decode); }
  }

  lemma EachIsSome(files: seq<FilePatch>)
    ensures |PrintEach(files)| == |files|
  {
  }

  lemma SomeLine(before: seq<Line>, files: seq<FilePatch>, tail: seq<Line>)
    requires files != []
    ensures !AllBlank(before + PrintAll(files) + tail)
  {
    hide IsBlank;
    var lines, first := before + PrintAll(files) + tail, PrintFile(files[0])[0];
    assert PrintAll(files)[0] == first && lines[|before|] == first;
    DashIsNotBlank(files[0]);
    assert first in lines;
  }

  lemma DashIsNotBlank(f: FilePatch)
    ensures !IsBlank(PrintFile(f)[0])
  {
    assert PrintFile(f)[0][0] == '-';
  }
}
