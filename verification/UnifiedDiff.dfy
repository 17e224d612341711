/** Unified diffs read as the file changes they intend: splitting a diff without `diff --git` lines into per-file
  * sections, and naming the targets of a section. The format is that of the POSIX.1-2017 `diff` utility, section "Diff
  * -u or -U Output Format". A diff is modelled as its lines; digits and whitespace are the ASCII ones.
  */
module UnifiedDiff {
  import opened Prelude

  datatype Result<T> = Ok(value: T) | Err

  type Line = string

  /** Decodes a C-quoted git path. */
  type Decoder = string -> Result<string>

  const DEV_NULL := "/dev/null"
  const OLD_FILE := "--- "
  const NEW_FILE := "+++ "
  const GIT_FILE := "diff --git "

  predicate StartsWith(s: string, p: string) {
    |p| <= |s| && s[..|p|] == p
  }

  // ---- hunk headers ----

  predicate IsDigit(c: char) {
    '0' <= c <= '9'
  }

  function DigitSpan(s: string): (n: nat)
    ensures n <= |s| && (forall i | 0 <= i < n :: IsDigit(s[i])) && (n < |s| ==> !IsDigit(s[n]))
  {
    if s != [] && IsDigit(s[0]) then 1 + DigitSpan(s[1..]) else 0
  }

  function Digit(c: char): nat
    requires IsDigit(c)
  {
    c as int - '0' as int
  }

  function Value(digits: string): nat
    requires forall i | 0 <= i < |digits| :: IsDigit(digits[i])
  {
    if digits == [] then 0 else 10 * Value(digits[..|digits| - 1]) + Digit(digits[|digits| - 1])
  }

  datatype Read = Read(count: nat, rest: string)

  function OptionalCount(s: string): Read {
    if s == [] || s[0] != ',' || DigitSpan(s[1..]) == 0 then Read(1, s)
    else Read(Value(s[1..][..DigitSpan(s[1..])]), s[1..][DigitSpan(s[1..])..])
  }

  /** A line number with its optional count, which is 1 when left out. */
  function ReadCount(s: string): Option<Read> {
    if DigitSpan(s) == 0 then None else Some(OptionalCount(s[DigitSpan(s)..]))
  }

  /** The old and new line counts of a hunk header; none for any other line. */
  function ParseHunk(line: Line): Option<(nat, nat)> {
    if !StartsWith(line, "@@ -") then None
    else match ReadCount(line[4..])
      case None => None
      case Some(was) =>
        if !StartsWith(was.rest, " +") then None
        else match ReadCount(was.rest[2..])
          case None => None
          case Some(now) => if StartsWith(now.rest, " @@") then Some((was.count, now.count)) else None
  }

  // ---- sections of a diff without `diff --git` lines ----

  /** The old and new lines a hunk body line uses up; none for a line no hunk body holds. */
  function Counts(line: Line): Option<(int, int)> {
    if line == [] || line[0] == ' ' then Some((1, 1))
    else if line[0] == '-' then Some((1, 0))
    else if line[0] == '+' then Some((0, 1))
    else if line[0] == '\\' then Some((0, 0))
    else None
  }

  datatype Splitter = Splitter(done: seq<seq<Line>>, current: seq<Line>, oldLeft: int, newLeft: int)

  function Take(s: Splitter, line: Line): Splitter {
    if (s.oldLeft > 0 || s.newLeft > 0) && Counts(line).Some?
    then s.(current := s.current + [line], oldLeft := s.oldLeft - Counts(line).value.0,
      newLeft := s.newLeft - Counts(line).value.1)
    else
      var left := match ParseHunk(line) case Some(counts) => counts case None => (0, 0);
      if StartsWith(line, OLD_FILE) then Splitter(s.done + [s.current], [line], left.0, left.1)
      else s.(current := s.current + [line], oldLeft := left.0, newLeft := left.1)
  }

  function TakeAll(s: Splitter, lines: seq<Line>): Splitter
    decreases |lines|
  {
    if lines == [] then s else TakeAll(Take(s, lines[0]), lines[1..])
  }

  function SectionsOf(lines: seq<Line>): seq<seq<Line>> {
    var s := TakeAll(Splitter([], [], 0, 0), lines);
    s.done + [s.current]
  }

  ghost function View(sections: seq<seq<Line>>, oldLeft: int, newLeft: int): Splitter
    requires sections != []
  {
    Splitter(sections[..|sections| - 1], sections[|sections| - 1], oldLeft, newLeft)
  }

  lemma ViewOpened(sections: seq<seq<Line>>, oldLeft: int, newLeft: int)
    requires sections != []
    ensures View(sections + [[]], oldLeft, newLeft)
         == Splitter(sections[..|sections| - 1] + [sections[|sections| - 1]], [], oldLeft, newLeft)
  {
    assert (sections + [[]])[..|sections|] == sections == sections[..|sections| - 1] + [sections[|sections| - 1]];
  }

  lemma ViewAppended(sections: seq<seq<Line>>, line: Line, oldLeft: int, newLeft: int)
    requires sections != []
    ensures View(sections[..|sections| - 1] + [sections[|sections| - 1] + [line]], oldLeft, newLeft)
         == Splitter(sections[..|sections| - 1], sections[|sections| - 1] + [line], oldLeft, newLeft)
    ensures [] + [line] == [line]
  {
    var sections' := sections[..|sections| - 1] + [sections[|sections| - 1] + [line]];
    assert sections'[..|sections'| - 1] == sections[..|sections| - 1];
  }

  lemma TakeFirst(s: Splitter, lines: seq<Line>)
    requires lines != []
    ensures TakeAll(s, lines) == TakeAll(Take(s, lines[0]), lines[1..])
  {
  }

  /** A hunk's body is walked by the counts in its header, so a body line that reads like a file header stays in it. */
  method NonGitSections(lines: seq<Line>) returns (sections: seq<seq<Line>>)
    ensures sections == SectionsOf(lines)
  {
    hide StartsWith, ParseHunk, Counts, TakeAll;
    sections := [[]];
    var oldLeft, newLeft := 0, 0;
    var rest := lines;
    while rest != []
      invariant sections != []
      invariant TakeAll(View(sections, oldLeft, newLeft), rest) == TakeAll(Splitter([], [], 0, 0), lines)
      decreases |rest|
    {
      var line := rest[0];
      TakeFirst(View(sections, oldLeft, newLeft), rest);
      var counts := if oldLeft > 0 || newLeft > 0 then Counts(line) else None;
      if counts.Some? {
        oldLeft, newLeft := oldLeft - counts.value.0, newLeft - counts.value.1;
      } else {
        var hunk := ParseHunk(line);
        oldLeft, newLeft := if hunk.Some? then hunk.value.0 else 0, if hunk.Some? then hunk.value.1 else 0;
        if StartsWith(line, OLD_FILE) {
          ViewOpened(sections, oldLeft, newLeft);
          sections := sections + [[]];
        }
      }
      ViewAppended(sections, line, oldLeft, newLeft);
      sections := sections[..|sections| - 1] + [sections[|sections| - 1] + [line]];
      rest := rest[1..];
    }
    NothingToTake(View(sections, oldLeft, newLeft));
    assert sections == sections[..|sections| - 1] + [sections[|sections| - 1]];
  }

  lemma NothingToTake(s: Splitter)
    ensures TakeAll(s, []) == s
  {
  }

  // ---- printing ----

  function Decimal(n: nat): (digits: string)
    ensures digits != [] && forall i | 0 <= i < |digits| :: IsDigit(digits[i])
  {
    (if n < 10 then [] else Decimal(n / 10)) + [('0' as int + n % 10) as char]
  }

  lemma {:induction false} DecimalValue(n: nat)
    ensures Value(Decimal(n)) == n
  {
    var digits := Decimal(n);
    if n >= 10 {
      DecimalValue(n / 10);
      assert digits[..|digits| - 1] == Decimal(n / 10);
    }
  }

  datatype BodyLine = Context(text: string) | Blank | Removed(text: string) | Added(text: string) | Remark(text: string)

  /** A hunk: its line numbers, whether a count of 1 is left out, what follows the header's `@@`, and its body. */
  datatype Hunk = Hunk(oldStart: nat, newStart: nat, terse: bool, heading: string, body: seq<BodyLine>)

  /** One file's changes; a timestamp, if any, follows a path after a tab. */
  datatype FilePatch = FilePatch(before: string, beforeTime: Option<string>, after: string, afterTime: Option<string>,
    hunks: seq<Hunk>)

  function PrintLine(b: BodyLine): Line {
    match b
    case Context(text) => " " + text
    case Blank => ""
    case Removed(text) => "-" + text
    case Added(text) => "+" + text
    case Remark(text) => "\\" + text
  }

  function PrintBody(body: seq<BodyLine>): seq<Line> {
    seq(|body|, i requires 0 <= i < |body| => PrintLine(body[i]))
  }

  function OldLines(body: seq<BodyLine>): nat {
    if body == [] then 0
    else (if body[0].Context? || body[0].Blank? || body[0].Removed? then 1 else 0) + OldLines(body[1..])
  }

  function NewLines(body: seq<BodyLine>): nat {
    if body == [] then 0
    else (if body[0].Context? || body[0].Blank? || body[0].Added? then 1 else 0) + NewLines(body[1..])
  }

  function PrintCount(n: nat, terse: bool): string {
    if terse && n == 1 then "" else "," + Decimal(n)
  }

  function HunkHeader(h: Hunk): Line {
    "@@ -" + (Decimal(h.oldStart) + (PrintCount(OldLines(h.body), h.terse)
    + (" +" + (Decimal(h.newStart) + (PrintCount(NewLines(h.body), h.terse) + (" @@" + h.heading))))))
  }

  function PrintHunk(h: Hunk): seq<Line> {
    [HunkHeader(h)] + PrintBody(h.body)
  }

  function PrintHunks(hunks: seq<Hunk>): seq<Line> {
    if hunks == [] then [] else PrintHunk(hunks[0]) + PrintHunks(hunks[1..])
  }

  function Stamped(path: string, time: Option<string>): string {
    if time.None? then path else path + "\t" + time.value
  }

  function PrintFile(f: FilePatch): seq<Line> {
    [OLD_FILE + Stamped(f.before, f.beforeTime), NEW_FILE + Stamped(f.after, f.afterTime)] + PrintHunks(f.hunks)
  }

  function PrintAll(files: seq<FilePatch>): seq<Line> {
    if files == [] then [] else PrintFile(files[0]) + PrintAll(files[1..])
  }

  function PrintEach(files: seq<FilePatch>): seq<seq<Line>> {
    seq(|files|, i requires 0 <= i < |files| => PrintFile(files[i]))
  }

  // ---- sectioning undoes printing ----

  lemma {:induction false} SpanOf(digits: string, rest: string)
    requires forall i | 0 <= i < |digits| :: IsDigit(digits[i])
    requires rest != [] ==> !IsDigit(rest[0])
    ensures DigitSpan(digits + rest) == |digits|
  {
    if digits == [] {
      assert digits + rest == rest;
    } else {
      assert (digits + rest)[1..] == digits[1..] + rest;
      SpanOf(digits[1..], rest);
    }
  }

  lemma OptionalCountOf(count: nat, terse: bool, rest: string)
    requires rest != [] && rest[0] == ' '
    ensures OptionalCount(PrintCount(count, terse) + rest) == Read(count, rest)
  {
    var digits, s := Decimal(count), PrintCount(count, terse) + rest;
    if terse && count == 1 {
      assert s == rest;
    } else {
      assert s[0] == ',' && s[1..] == digits + rest;
      SpanOf(digits, rest);
      DecimalValue(count);
      hide Decimal, PrintCount, DigitSpan, Value;
      assert (digits + rest)[..|digits|] == digits && (digits + rest)[|digits|..] == rest;
    }
  }

  lemma ReadCountOf(start: nat, count: nat, terse: bool, rest: string)
    requires rest != [] && rest[0] == ' '
    ensures ReadCount(Decimal(start) + (PrintCount(count, terse) + rest)) == Some(Read(count, rest))
  {
    var number, tail := Decimal(start), PrintCount(count, terse) + rest;
    assert !IsDigit(tail[0]);
    SpanOf(number, tail);
    OptionalCountOf(count, terse, rest);
    hide Decimal, PrintCount, DigitSpan, OptionalCount;
    assert (number + tail)[|number|..] == tail;
  }

  lemma ParseParts(line: Line, was: Read, now: Read)
    requires StartsWith(line, "@@ -") && ReadCount(line[4..]) == Some(was)
    requires StartsWith(was.rest, " +") && ReadCount(was.rest[2..]) == Some(now) && StartsWith(now.rest, " @@")
    ensures ParseHunk(line) == Some((was.count, now.count))
  {
    hide StartsWith, ReadCount;
  }

  lemma FirstChar(s: string, p: string)
    requires p != []
    ensures StartsWith(s, p) ==> s != [] && s[0] == p[0]
  {
    if StartsWith(s, p) { assert s[..|p|][0] == s[0]; }
  }

  lemma StartOf(p: string, rest: string)
    ensures StartsWith(p + rest, p) && (p + rest)[|p|..] == rest
  {
  }

  lemma HeaderParses(h: Hunk)
    ensures ParseHunk(HunkHeader(h)) == Some((OldLines(h.body), NewLines(h.body)))
    ensures |HunkHeader(h)| > 0 && HunkHeader(h)[0] == '@'
  {
    hide StartsWith, ReadCount, ParseHunk, PrintCount, OldLines, NewLines, Decimal;
    var tail := " @@" + h.heading;
    var middle := " +" + (Decimal(h.newStart) + (PrintCount(NewLines(h.body), h.terse) + tail));
    StartOf("@@ -", Decimal(h.oldStart) + (PrintCount(OldLines(h.body), h.terse) + middle));
    ReadCountOf(h.oldStart, OldLines(h.body), h.terse, middle);
    StartOf(" +", Decimal(h.newStart) + (PrintCount(NewLines(h.body), h.terse) + tail));
    ReadCountOf(h.newStart, NewLines(h.body), h.terse, tail);
    StartOf(" @@", h.heading);
    ParseParts(HunkHeader(h), Read(OldLines(h.body), middle), Read(NewLines(h.body), tail));
  }

  /** Only a line that starts with `@` is a hunk header, and only one that starts with `-` opens a section. */
  lemma OtherLine(line: Line)
    ensures line == [] || line[0] != '@' ==> ParseHunk(line) == None
    ensures line == [] || line[0] != '-' ==> !StartsWith(line, OLD_FILE)
  {
    hide ReadCount;
    FirstChar(line, "@@ -");
    FirstChar(line, OLD_FILE);
  }

  lemma {:induction false} TakeAllConcat(s: Splitter, a: seq<Line>, b: seq<Line>)
    ensures TakeAll(s, a + b) == TakeAll(TakeAll(s, a), b)
    decreases |a|
  {
    if a == [] {
      assert a + b == b;
    } else {
      assert (a + b)[1..] == a[1..] + b;
      TakeAllConcat(Take(s, a[0]), a[1..], b);
    }
  }

  /** Every body line stays in its hunk, whatever it reads. */
  lemma {:induction false} TakeBody(s: Splitter, body: seq<BodyLine>)
    requires s.oldLeft == OldLines(body) && s.newLeft == NewLines(body)
    ensures TakeAll(s, PrintBody(body)) == s.(current := s.current + PrintBody(body), oldLeft := 0, newLeft := 0)
    decreases |body|
  {
    hide Take, PrintLine;
    if body == [] {
      NothingToTake(s);
      assert PrintBody(body) == [] && s.current + [] == s.current;
    } else {
      var line, rest := PrintLine(body[0]), PrintBody(body[1..]);
      var s' := s.(current := s.current + [line], oldLeft := OldLines(body[1..]), newLeft := NewLines(body[1..]));
      BodyStart(body);
      hide PrintBody, TakeAll;
      TakeBodyLine(s, body);
      TakeBody(s', body[1..]);
      assert ([line] + rest)[1..] == rest;
      TakeFirst(s, [line] + rest);
      assert s'.current + rest == s.current + ([line] + rest);
    }
  }

  lemma BodyStart(body: seq<BodyLine>)
    requires body != []
    ensures PrintBody(body) == [PrintLine(body[0])] + PrintBody(body[1..])
  {
    hide PrintLine;
  }

  lemma TakeBodyLine(s: Splitter, body: seq<BodyLine>)
    requires body != [] && s.oldLeft == OldLines(body) && s.newLeft == NewLines(body)
    ensures Take(s, PrintLine(body[0]))
         == s.(current := s.current + [PrintLine(body[0])], oldLeft := OldLines(body[1..]),
           newLeft := NewLines(body[1..]))
  {
    hide ParseHunk, StartsWith;
    OtherLine(PrintLine(body[0]));
  }

  lemma TakeHunk(s: Splitter, h: Hunk)
    requires s.oldLeft == 0 && s.newLeft == 0
    ensures TakeAll(s, PrintHunk(h)) == s.(current := s.current + PrintHunk(h))
  {
    hide ParseHunk, StartsWith, HunkHeader, OldLines, NewLines, PrintBody;
    var header, body := HunkHeader(h), PrintBody(h.body);
    HeaderParses(h);
    OtherLine(header);
    var s' := s.(current := s.current + [header], oldLeft := OldLines(h.body), newLeft := NewLines(h.body));
    assert Take(s, header) == s';
    TakeBody(s', h.body);
    assert ([header] + body)[1..] == body;
    TakeFirst(s, [header] + body);
    assert s'.current + body == s.current + ([header] + body);
  }

  lemma {:induction false} TakeHunks(s: Splitter, hunks: seq<Hunk>)
    requires s.oldLeft == 0 && s.newLeft == 0
    ensures TakeAll(s, PrintHunks(hunks)) == s.(current := s.current + PrintHunks(hunks))
    decreases |hunks|
  {
    hide PrintHunk, Take;
    if hunks == [] {
      assert s.current + PrintHunks(hunks) == s.current;
    } else {
      var hunk, rest := PrintHunk(hunks[0]), PrintHunks(hunks[1..]);
      var s' := s.(current := s.current + hunk);
      TakeHunk(s, hunks[0]);
      TakeHunks(s', hunks[1..]);
      TakeAllConcat(s, hunk, rest);
      assert s'.current + rest == s.current + (hunk + rest);
    }
  }

  lemma TakeFile(s: Splitter, f: FilePatch)
    requires s.oldLeft == 0 && s.newLeft == 0
    ensures TakeAll(s, PrintFile(f)) == Splitter(s.done + [s.current], PrintFile(f), 0, 0)
  {
    hide ParseHunk, Stamped, PrintHunks;
    var first, second := OLD_FILE + Stamped(f.before, f.beforeTime), NEW_FILE + Stamped(f.after, f.afterTime);
    var rest := PrintHunks(f.hunks);
    OtherLine(first);
    OtherLine(second);
    StartOf(OLD_FILE, Stamped(f.before, f.beforeTime));
    hide StartsWith;
    var s1 := Splitter(s.done + [s.current], [first], 0, 0);
    var s2 := Splitter(s.done + [s.current], [first] + [second], 0, 0);
    assert Take(s, first) == s1 && Take(s1, second) == s2;
    TakeFirst(s, PrintFile(f));
    TakeFirst(s1, [second] + rest);
    assert PrintFile(f)[1..] == [second] + rest && ([second] + rest)[1..] == rest;
    TakeHunks(s2, f.hunks);
    assert s2.current + rest == PrintFile(f);
  }

  lemma {:induction false} TakeFiles(s: Splitter, files: seq<FilePatch>)
    requires s.oldLeft == 0 && s.newLeft == 0
    ensures var s' := TakeAll(s, PrintAll(files));
            s'.oldLeft == 0 && s'.newLeft == 0 && s'.done + [s'.current] == s.done + [s.current] + PrintEach(files)
    decreases |files|
  {
    hide PrintFile, Take;
    if files != [] {
      var f := files[0];
      var s1 := Splitter(s.done + [s.current], PrintFile(f), 0, 0);
      TakeFile(s, f);
      TakeAllConcat(s, PrintFile(f), PrintAll(files[1..]));
      TakeFiles(s1, files[1..]);
      assert PrintEach(files) == [PrintFile(f)] + PrintEach(files[1..]);
    }
  }

  /** Lines outside all files that open neither a section nor a hunk. */
  ghost predicate Outside(lines: seq<Line>) {
    forall line | line in lines :: !StartsWith(line, OLD_FILE) && ParseHunk(line) == None
  }

  lemma {:induction false} TakeOutside(s: Splitter, lines: seq<Line>)
    requires s.oldLeft == 0 && s.newLeft == 0 && Outside(lines)
    ensures TakeAll(s, lines) == s.(current := s.current + lines)
    decreases |lines|
  {
    if lines == [] {
      assert s.current + lines == s.current;
    } else {
      TakeOutside(s.(current := s.current + [lines[0]]), lines[1..]);
      assert s.current + [lines[0]] + lines[1..] == s.current + lines;
    }
  }

  /** Sections with more lines at the end of the last. */
  function Trailed(sections: seq<seq<Line>>, tail: seq<Line>): seq<seq<Line>>
    requires sections != []
  {
    sections[..|sections| - 1] + [sections[|sections| - 1] + tail]
  }

  /** Sectioning undoes printing: what was printed for each file comes back as one section, in order, after a section
    * with whatever came before the first file; what follows the last file stays with it. */
  lemma SplitUndoesPrint(before: seq<Line>, files: seq<FilePatch>, tail: seq<Line>)
    requires Outside(before) && Outside(tail)
    ensures SectionsOf(before + PrintAll(files) + tail) == Trailed([before] + PrintEach(files), tail)
  {
    hide Outside, PrintAll, PrintEach, Take;
    var s := Splitter([], [], 0, 0);
    var s1 := s.(current := before);
    TakeOutside(s, before);
    assert [] + before == before;
    var s2 := TakeAll(s1, PrintAll(files));
    TakeFiles(s1, files);
    TakeOutside(s2, tail);
    TakeAllConcat(s, before, PrintAll(files));
    TakeAllConcat(s, before + PrintAll(files), tail);
    TrailedEnd(s2.done, s2.current, tail);
    assert s1.done + [s1.current] == [before];
  }

  lemma TrailedEnd(done: seq<seq<Line>>, last: seq<Line>, tail: seq<Line>)
    ensures Trailed(done + [last], tail) == done + [last + tail]
  {
    assert (done + [last])[..|done|] == done;
  }
}
