/** The parser of the bundled change log (utils/parseChangelog.ts). The text
    is read line by line: a `## [version] - date` line opens an entry, a
    `### …` line chooses one of four sections, and a `- text` line adds a
    bullet to the chosen section of the open entry. The two regular
    expressions are written out as functions on the line. */
module Changelog {
  import opened Js

  datatype Section = Added | Fixed | Changed | Removed

  /** A section's list exists only once a bullet has landed in it. */
  datatype Changes = Changes(added: Option<seq<string>>, fixed: Option<seq<string>>, changed: Option<seq<string>>, removed: Option<seq<string>>)

  const NoChanges: Changes := Changes(None, None, None, None)

  datatype ChangelogEntry = ChangelogEntry(version: string, date: string, changes: Changes)

  // ---------------------------------------------------------------------------
  // The two patterns

  /** `\s` of JavaScript regular expressions. */
  predicate IsSpace(c: char) {
    c == ' ' || c == '\t' || c == '\n' || c == '\r' || c == '\U{000B}' || c == '\U{000C}' || c == '\U{00A0}'
    || c == '\U{1680}' || ('\U{2000}' <= c <= '\U{200A}') || c == '\U{2028}' || c == '\U{2029}'
    || c == '\U{202F}' || c == '\U{205F}' || c == '\U{3000}' || c == '\U{FEFF}'
  }

  /** The characters `.` does not match. */
  predicate IsLineTerminator(c: char) {
    c == '\n' || c == '\r' || c == '\U{2028}' || c == '\U{2029}'
  }

  predicate OnOneLine(s: string) {
    forall c :: c in s ==> !IsLineTerminator(c)
  }

  /** The length of the white space at the start of `s`. */
  function SpaceRun(s: string): (n: nat)
    ensures n <= |s|
    ensures n < |s| ==> !IsSpace(s[n])
    decreases |s|
  {
    if s == [] || !IsSpace(s[0]) then 0 else 1 + SpaceRun(s[1..])
  }

  /** `\s+(.+)$` at the start of `s`: the capture. The white space is taken
      greedily; when nothing is left for `(.+)`, the last white-space
      character is given back to it. */
  function SpacedRest(s: string): (r: Option<string>)
    ensures r.Some? ==> r.value != "" && OnOneLine(r.value) && exists n :: 1 <= n < |s| && r.value == s[n..]
  {
    var n := SpaceRun(s);
    var tail := s[n..];
    if n == 0 then None
    else if tail != [] then (if OnOneLine(tail) then Some(tail) else None)
    else if n >= 2 && !IsLineTerminator(s[n - 1]) then Some(s[n - 1..])
    else None
  }

  /** `line.match(/^##\s+\[([^\]]+)\]\s+-\s+(.+)$/)`: the version and the date. */
  function HeaderOf(line: string): (r: Option<(string, string)>)
    ensures r.Some? ==> StartsWith(line, "##")
  {
    if !StartsWith(line, "##") then None else BracketedFrom(line[2..])
  }

  /** `\s+\[` and the rest of the header. */
  function BracketedFrom(s: string): (r: Option<(string, string)>)
  {
    var a := SpaceRun(s);
    if a == 0 || a == |s| || s[a] != '[' then None else VersionFrom(s[a + 1..])
  }

  predicate IsCloseBracket(c: char) {
    c == ']'
  }

  /** `([^\]]+)\]` and the rest of the header. */
  function VersionFrom(s: string): (r: Option<(string, string)>)
  {
    var j := FindIndex(s, IsCloseBracket);
    if j <= 0 then None
    else
      var date := DateFrom(s[j + 1..]);
      if date.None? then None else Some((s[..j], date.value))
  }

  /** `\s+-\s+(.+)$` */
  function DateFrom(s: string): (r: Option<string>)
  {
    var b := SpaceRun(s);
    if b == 0 || b == |s| || s[b] != '-' then None else SpacedRest(s[b + 1..])
  }

  /** `line.match(/^-\s+(.+)$/)`: the bullet's text. */
  function BulletOf(line: string): (r: Option<string>)
    ensures r.Some? ==> r.value != "" && OnOneLine(r.value)
  {
    if line != [] && line[0] == '-' then SpacedRest(line[1..]) else None
  }

  /** The section headers, recognised by prefix. */
  function SectionOf(line: string): Option<Section> {
    if StartsWith(line, "### Dodano") then Some(Added)
    else if StartsWith(line, "### Naprawiono") then Some(Fixed)
    else if StartsWith(line, "### Zmieniono") then Some(Changed)
    else if StartsWith(line, "### Usuni\U{0119}to") then Some(Removed)
    else None
  }

  function ListOf(c: Changes, s: Section): Option<seq<string>> {
    match s
    case Added => c.added
    case Fixed => c.fixed
    case Changed => c.changed
    case Removed => c.removed
  }

  /** `changes[section] ??= []; changes[section].push(text)` */
  function AddBullet(e: ChangelogEntry, s: Section, text: string): (r: ChangelogEntry)
    ensures r.version == e.version && r.date == e.date
    ensures ListOf(r.changes, s) == Some(Or(ListOf(e.changes, s), []) + [text])
    ensures forall o :: o != s ==> ListOf(r.changes, o) == ListOf(e.changes, o)
  {
    var l := Or(ListOf(e.changes, s), []) + [text];
    var c := e.changes;
    e.(changes := match s
      case Added => c.(added := Some(l))
      case Fixed => c.(fixed := Some(l))
      case Changed => c.(changed := Some(l))
      case Removed => c.(removed := Some(l)))
  }

  // ---------------------------------------------------------------------------
  // The loop as a fold

  /** What a line is to the loop: the branches of its body, tried in order. */
  datatype Line = Header(version: string, date: string) | SectionLine(section: Section) | Bullet(text: string) | Other

  function Classify(line: string): Line {
    var header := HeaderOf(line);
    if header.Some? then Header(header.value.0, header.value.1)
    else if SectionOf(line).Some? then SectionLine(SectionOf(line).value)
    else if BulletOf(line).Some? then Bullet(BulletOf(line).value)
    else Other
  }

  function Kinds(lines: seq<string>): (r: seq<Line>)
    ensures |r| == |lines| && forall k :: 0 <= k < |lines| ==> r[k] == Classify(lines[k])
  {
    seq(|lines|, k requires 0 <= k < |lines| => Classify(lines[k]))
  }

  /** The loop's variables: the finished entries, the open entry and the section. */
  datatype Parser = Parser(entries: seq<ChangelogEntry>, current: Option<ChangelogEntry>, section: Option<Section>)

  const Start: Parser := Parser([], None, None)

  /** The entries once the open one is closed. */
  function Emitted(p: Parser): seq<ChangelogEntry> {
    p.entries + (if p.current.Some? then [p.current.value] else [])
  }

  /** One iteration of the loop. A bullet needs an open entry and a chosen section. */
  function Step(p: Parser, line: Line): Parser {
    match line
    case Header(version, date) => Parser(Emitted(p), Some(ChangelogEntry(version, date, NoChanges)), None)
    case SectionLine(s) => p.(section := Some(s))
    case Bullet(text) =>
      if p.current.Some? && p.section.Some? then p.(current := Some(AddBullet(p.current.value, p.section.value, text)))
      else p
    case Other => p
  }

  function Run(p: Parser, lines: seq<Line>): Parser
    decreases |lines|
  {
    if lines == [] then p else Step(Run(p, lines[..|lines| - 1]), lines[|lines| - 1])
  }

  /** `parseChangelog(content)` */
  function Parse(content: string): seq<ChangelogEntry> {
    Emitted(Run(Start, Kinds(Split(content, '\n'))))
  }

  /** `parseChangelog`: one pass over the lines. */
  method ParseChangelog(content: string) returns (entries: seq<ChangelogEntry>)
    ensures entries == Parse(content)
  {
    var lines := Split(content, '\n');
    ghost var kinds := Kinds(lines);
    entries := [];
    var current: Option<ChangelogEntry> := None;
    var section: Option<Section> := None;
    for i := 0 to |lines|
      invariant Parser(entries, current, section) == Run(Start, kinds[..i])
    {
      assert kinds[..i + 1][..i] == kinds[..i];
      ghost var before := Parser(entries, current, section);
      assert Run(Start, kinds[..i + 1]) == Step(before, kinds[i]);
      var line := lines[i];
      assert kinds[i] == Classify(line);
      var header := HeaderOf(line);
      if header.Some? {
        if current.Some? {
          entries := entries + [current.value];
        }
        current := Some(ChangelogEntry(header.value.0, header.value.1, NoChanges));
        section := None;
        continue;
      }
      var s := SectionOf(line);
      if s.Some? {
        section := s;
        continue;
      }
      var bullet := BulletOf(line);
      if bullet.Some? && current.Some? && section.Some? {
        current := Some(AddBullet(current.value, section.value, bullet.value));
      }
    }
    assert kinds[..|lines|] == kinds;
    if current.Some? {
      entries := entries + [current.value];
    }
  }

  // ---------------------------------------------------------------------------
  // Properties

  lemma {:induction false} FirstCloseBracket(version: string, rest: string)
    requires ']' !in version
    ensures FindIndex(version + "]" + rest, IsCloseBracket) == |version|
    decreases |version|
  {
    var s := version + "]" + rest;
    if version != [] {
      assert s[1..] == version[1..] + "]" + rest;
      FirstCloseBracket(version[1..], rest);
    }
  }

  lemma SpaceRunOfOne(s: string)
    requires |s| >= 2 && IsSpace(s[0]) && !IsSpace(s[1])
    ensures SpaceRun(s) == 1
  {
    assert SpaceRun(s[1..]) == 0;
  }

  /** One space, then text that starts with no white space. */
  lemma SpacedRestOfOneSpace(text: string)
    requires text != "" && OnOneLine(text) && !IsSpace(text[0])
    ensures SpacedRest(" " + text) == Some(text)
  {
    var s := " " + text;
    SpaceRunOfOne(s);
    assert s[1..] == text;
  }

  lemma DateRoundTrip(date: string)
    requires date != "" && OnOneLine(date) && !IsSpace(date[0])
    ensures DateFrom(" - " + date) == Some(date)
  {
    var s := " - " + date;
    SpaceRunOfOne(s);
    assert s[2..] == " " + date;
    SpacedRestOfOneSpace(date);
  }

  lemma VersionRoundTrip(version: string, date: string)
    requires version != "" && ']' !in version
    requires date != "" && OnOneLine(date) && !IsSpace(date[0])
    ensures VersionFrom(version + "]" + (" - " + date)) == Some((version, date))
  {
    var s := version + "]" + (" - " + date);
    FirstCloseBracket(version, " - " + date);
    assert s[..|version|] == version && s[|version| + 1..] == " - " + date;
    DateRoundTrip(date);
  }

  lemma BracketedRoundTrip(rest: string)
    requires rest != []
    ensures BracketedFrom(" [" + rest) == VersionFrom(rest)
  {
    var s := " [" + rest;
    SpaceRunOfOne(s);
    assert s[2..] == rest;
  }

  /** A header line written the usual way reads back as its version and date. */
  lemma HeaderRoundTrip(version: string, date: string)
    requires version != "" && ']' !in version
    requires date != "" && OnOneLine(date) && !IsSpace(date[0])
    ensures HeaderOf("## [" + version + "] - " + date) == Some((version, date))
  {
    var rest := version + "]" + (" - " + date);
    var line := "## [" + version + "] - " + date;
    assert line == "##" + (" [" + rest);
    assert line[2..] == " [" + rest;
    BracketedRoundTrip(rest);
    VersionRoundTrip(version, date);
  }

  lemma DateShape(s: string)
    requires DateFrom(s).Some?
    ensures DateFrom(s).value != "" && OnOneLine(DateFrom(s).value)
  {
  }

  lemma VersionShape(s: string)
    requires VersionFrom(s).Some?
    ensures var h := VersionFrom(s).value; h.0 != "" && ']' !in h.0 && h.1 != "" && OnOneLine(h.1)
  {
    var j := FindIndex(s, IsCloseBracket);
    assert forall k :: 0 <= k < j ==> !IsCloseBracket(s[k]);
    DateShape(s[j + 1..]);
  }

  /** What a header line captures: a version without `]` and a one-line date. */
  lemma HeaderShape(line: string)
    requires HeaderOf(line).Some?
    ensures var h := HeaderOf(line).value; h.0 != "" && ']' !in h.0 && h.1 != "" && OnOneLine(h.1)
  {
    var s1 := line[2..];
    assert BracketedFrom(s1).Some?;
    VersionShape(s1[SpaceRun(s1) + 1..]);
  }

  /** A bullet line written the usual way reads back as its text. */
  lemma BulletRoundTrip(text: string)
    requires text != "" && OnOneLine(text) && !IsSpace(text[0])
    ensures BulletOf("- " + text) == Some(text)
  {
    assert ("- " + text)[1..] == " " + text;
    SpacedRestOfOneSpace(text);
  }

  /** The usual header line reaches the loop as a header. */
  lemma ClassifyHeaderLine(version: string, date: string)
    requires version != "" && ']' !in version
    requires date != "" && OnOneLine(date) && !IsSpace(date[0])
    ensures Classify("## [" + version + "] - " + date) == Header(version, date)
  {
    HeaderRoundTrip(version, date);
  }

  /** The usual bullet line reaches the loop as a bullet. */
  lemma ClassifyBulletLine(text: string)
    requires text != "" && OnOneLine(text) && !IsSpace(text[0])
    ensures Classify("- " + text) == Bullet(text)
  {
    var line := "- " + text;
    BulletRoundTrip(text);
    assert line[0] == '-';
    assert HeaderOf(line).None?;
    assert SectionOf(line).None?;
  }

  /** A header line is neither a section line nor a bullet. */
  lemma HeaderIsNotBullet(line: string)
    requires HeaderOf(line).Some?
    ensures BulletOf(line).None?
  {
  }

  // The versions and dates, in order

  function Titles(es: seq<ChangelogEntry>): (r: seq<(string, string)>)
    ensures |r| == |es| && forall k :: 0 <= k < |es| ==> r[k] == (es[k].version, es[k].date)
  {
    seq(|es|, k requires 0 <= k < |es| => (es[k].version, es[k].date))
  }

  /** The captures of the header lines, in line order. */
  function Headers(lines: seq<string>): seq<(string, string)>
    decreases |lines|
  {
    if lines == [] then []
    else
      var h := HeaderOf(lines[|lines| - 1]);
      Headers(lines[..|lines| - 1]) + (if h.Some? then [h.value] else [])
  }

  function Titled(p: Parser): seq<(string, string)> {
    Titles(Emitted(p))
  }

  function HeaderTitle(line: Line): seq<(string, string)> {
    if line.Header? then [(line.version, line.date)] else []
  }

  lemma StepTitles(p: Parser, line: Line)
    ensures Titled(Step(p, line)) == Titled(p) + HeaderTitle(line)
  {
    var q := Step(p, line);
    if line.Header? {
      assert Emitted(q) == Emitted(p) + [q.current.value];
    } else if p.current.Some? && q.current.Some? {
      assert |Emitted(q)| == |Emitted(p)|;
      assert forall k :: 0 <= k < |Emitted(p)| - 1 ==> Emitted(q)[k] == Emitted(p)[k];
    }
  }

  lemma {:induction false} RunTitles(p: Parser, lines: seq<string>)
    ensures Titled(Run(p, Kinds(lines))) == Titled(p) + Headers(lines)
    decreases |lines|
  {
    if lines != [] {
      var init := lines[..|lines| - 1];
      RunTitles(p, init);
      assert Kinds(lines)[..|lines| - 1] == Kinds(init);
      StepTitles(Run(p, Kinds(init)), Classify(lines[|lines| - 1]));
    }
  }

  /** One entry per header line, in line order, carrying that line's version and date. */
  lemma ParseTitles(content: string)
    ensures Titles(Parse(content)) == Headers(Split(content, '\n'))
  {
    RunTitles(Start, Split(content, '\n'));
  }

  // Lists exist only when filled

  predicate Filled(c: Changes) {
    forall s :: ListOf(c, s).Some? ==> ListOf(c, s).value != []
  }

  predicate FilledParser(p: Parser) {
    (forall k :: 0 <= k < |p.entries| ==> Filled(p.entries[k].changes))
    && (p.current.Some? ==> Filled(p.current.value.changes))
  }

  lemma {:induction false} RunFilled(p: Parser, lines: seq<Line>)
    requires FilledParser(p)
    ensures FilledParser(Run(p, lines))
    decreases |lines|
  {
    if lines != [] {
      RunFilled(p, lines[..|lines| - 1]);
      if lines[|lines| - 1].Header? {
        assert Filled(NoChanges);
      }
    }
  }

  /** No entry has an empty section list: a list appears with its first bullet. */
  lemma ParseListsFilled(content: string)
    ensures forall e :: e in Parse(content) ==> Filled(e.changes)
  {
    RunFilled(Start, Kinds(Split(content, '\n')));
  }

  // Bullets need a section

  /** After a header, bullets before the first section line are dropped. */
  lemma {:induction false} BulletsBeforeSectionDropped(p: Parser, lines: seq<Line>)
    requires |lines| > 0 && lines[0].Header?
    requires forall k :: 1 <= k < |lines| ==> !lines[k].Header? && !lines[k].SectionLine?
    ensures Run(p, lines) == Parser(Emitted(p), Some(ChangelogEntry(lines[0].version, lines[0].date, NoChanges)), None)
    decreases |lines|
  {
    if |lines| > 1 {
      BulletsBeforeSectionDropped(p, lines[..|lines| - 1]);
    } else {
      assert lines[..0] == [];
    }
  }

  /** The texts of bullet lines. */
  function Texts(lines: seq<Line>): (r: seq<string>)
    requires forall k :: 0 <= k < |lines| ==> lines[k].Bullet?
    ensures |r| == |lines| && forall k :: 0 <= k < |lines| ==> r[k] == lines[k].text
  {
    seq(|lines|, k requires 0 <= k < |lines| => lines[k].text)
  }

  /** The open entry and the section as bullets under a section line leave them. */
  predicate Landed(p: Parser, q: Parser, s: Section, texts: seq<string>) {
    p.current.Some? && q.current.Some? && q.entries == p.entries && q.section == Some(s)
    && q.current.value.version == p.current.value.version && q.current.value.date == p.current.value.date
    && ListOf(q.current.value.changes, s) == (if texts == [] then ListOf(p.current.value.changes, s)
                                              else Some(Or(ListOf(p.current.value.changes, s), []) + texts))
    && forall o :: o != s ==> ListOf(q.current.value.changes, o) == ListOf(p.current.value.changes, o)
  }

  /** Bullets under a section line land in that section, in order, and no other list changes. */
  lemma {:induction false} BulletsLandInSection(p: Parser, lines: seq<Line>)
    requires |lines| > 0 && p.current.Some? && lines[0].SectionLine?
    requires forall k :: 1 <= k < |lines| ==> lines[k].Bullet?
    ensures Landed(p, Run(p, lines), lines[0].section, Texts(lines[1..]))
    decreases |lines|
  {
    var init := lines[..|lines| - 1];
    if |lines| == 1 {
      assert init == [] && lines[1..] == [];
    } else {
      var s := lines[0].section;
      var last := lines[|lines| - 1];
      BulletsLandInSection(p, init);
      var q := Run(p, init);
      assert Run(p, lines) == Step(q, last);
      assert Step(q, last) == q.(current := Some(AddBullet(q.current.value, s, last.text)));
      var before := Texts(init[1..]);
      assert init[0] == lines[0];
      assert Landed(p, q, s, before);
      assert lines[1..] == init[1..] + [last];
      assert Texts(lines[1..]) == before + [last.text];
      var listed := Or(ListOf(p.current.value.changes, s), []);
      var added := ListOf(Step(q, last).current.value.changes, s);
      assert added == Some(Or(ListOf(q.current.value.changes, s), []) + [last.text]);
      if before == [] {
        assert Texts(lines[1..]) == [last.text];
      } else {
        assert ListOf(q.current.value.changes, s) == Some(listed + before);
        assert listed + before + [last.text] == listed + (before + [last.text]);
      }
    }
  }
}
