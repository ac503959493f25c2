/** The documented format of a runbook section, and what writing entries in it and parsing
    them back gives (docs/runbooks/kubernetes-errors.md and runbooks.go). */
module RunbookFormat {
  import opened Wrappers
  import opened Text
  import opened Runbooks

  // ------------------------------------------------------------ the format

  function FieldLine(f: Field, value: string): string {
    match f
    case Kind => "kind: " + value
    case Keywords => "keywords: " + value
    case LogSignatures => "log_signatures: " + value
    case LogSource => "log_source: " + value
  }

  lemma FieldLineIs(f: Field, value: string)
    ensures FieldLine(f, value) == Word(f) + " " + value
  {
    assert "kind:" + " " == "kind: " && "keywords:" + " " == "keywords: ";
    assert "log_signatures:" + " " == "log_signatures: " && "log_source:" + " " == "log_source: ";
  }

  function MetaValue(e: Entry, f: Field): string {
    match f
    case Kind => e.kind
    case Keywords => Join(e.keywords, ", ")
    case LogSignatures => Join(e.logSignatures, ", ")
    case LogSource => e.logSource
  }

  function Written(e: Entry, f: Field): seq<string> {
    [FieldLine(f, MetaValue(e, f))]
  }

  /** The metadata lines: the two optional fields appear only when there is something to say. */
  function MetaLines(e: Entry): seq<string> {
    Written(e, Kind) + Written(e, Keywords)
    + (if e.logSignatures == [] then [] else Written(e, LogSignatures))
    + (if e.logSource == "" then [] else Written(e, LogSource))
  }

  /** Everything after the metadata: a blank line, the body, and a rule before what follows. */
  function BodyLines(e: Entry): seq<string> {
    [""] + Split(e.body, "\n") + ["", "---", ""]
  }

  /** One section, without its leading "## ". */
  function RenderEntry(e: Entry): string {
    Join([e.title] + MetaLines(e) + BodyLines(e), "\n")
  }

  function Render(intro: string, entries: seq<Entry>): string {
    if entries == [] then intro
    else Render(intro, entries[..|entries| - 1]) + "\n## " + RenderEntry(entries[|entries| - 1])
  }

  // ------------------------------------------------------------ what a parsed entry is

  /** Fits on one line and has nothing to trim. */
  predicate OneLine(s: string) {
    Trimmed(s) && '\n' !in s
  }

  predicate Items(items: seq<string>) {
    forall i | 0 <= i < |items| :: items[i] != "" && OneLine(items[i]) && ',' !in items[i]
  }

  predicate NotAField(s: string) {
    forall f: Field :: !HasPrefix(s, Word(f))
  }

  /** What holds of every entry the parser returns. */
  predicate Canonical(e: Entry) {
    && OneLine(e.title) && OneLine(e.kind) && OneLine(e.logSource)
    && Items(e.keywords) && Items(e.logSignatures)
    && (e.kind != "" || e.keywords != [])
    && Trimmed(e.body) && !Contains(e.body, SECTION) && NotAField(e.body)
  }

  // ------------------------------------------------------------ reading one field back

  predicate NoSpaceIn(s: string) {
    forall i | 0 <= i < |s| :: !IsSpace(s[i])
  }

  lemma WordHasNoSpace(f: Field)
    ensures Word(f) != "" && NoSpaceIn(Word(f))
  {
  }

  lemma WordsDiffer(f: Field, g: Field, rest: string)
    requires f != g
    ensures !HasPrefix(Word(f) + rest, Word(g))
  {
    var i := if (f in {Kind, Keywords}) != (g in {Kind, Keywords}) then 0 else if f in {Kind, Keywords} then 1 else 5;
    assert i < |Word(f)| && i < |Word(g)| && Word(f)[i] != Word(g)[i];
    assert (Word(f) + rest)[i] == Word(f)[i];
  }

  /** A field's line, trimmed, still starts with its word, and what follows is blank or a
      space and the value. */
  lemma FieldLineTrims(f: Field, value: string)
    requires Trimmed(value)
    ensures TrimSpace(FieldLine(f, value)) == Word(f) + (if value == "" then "" else " " + value)
  {
    WordHasNoSpace(f);
    FieldLineIs(f, value);
    hide TrimSpace, Word, IsSpace, FieldLine;
    assert IsSpace(' ') by {
      SpaceIsSpace();
    }
    if value == "" {
      assert FieldLine(f, value) == "" + Word(f) + " ";
      TrimSpaceOf("", Word(f), " ");
    } else {
      var s := Word(f) + " " + value;
      assert s == "" + s + "";
      assert s[0] == Word(f)[0] && s[|s| - 1] == value[|value| - 1];
      TrimSpaceOf("", s, "");
      assert s == Word(f) + (" " + value);
    }
  }

  lemma SpaceIsSpace()
    ensures IsSpace(' ') && IsSpace('\n')
  {
  }

  /** What one field's text does to an entry. */
  function Read(e: Entry, f: Field, text: string): Entry {
    match f
    case Kind => e.(kind := TrimSpace(text))
    case Keywords => e.(keywords := e.keywords + Listed(text))
    case LogSignatures => e.(logSignatures := e.logSignatures + Listed(text))
    case LogSource => e.(logSource := TrimSpace(text))
  }

  lemma PrefixOfSum(a: string, b: string)
    ensures HasPrefix(a + b, a)
  {
  }

  lemma MetaReads(e: Entry, f: Field, text: string)
    ensures Meta(e, Word(f) + text) == Some(Read(e, f, text))
  {
    hide Word, TrimSpace, Listed, HasPrefix;
    forall g | g != f
      ensures !HasPrefix(Word(f) + text, Word(g))
    {
      WordsDiffer(f, g, text);
    }
    assert HasPrefix(Word(f) + text, Word(f)) by {
      PrefixOfSum(Word(f), text);
    }
    assert (Word(f) + text)[|Word(f)|..] == text;
  }

  lemma OneValue(value: string)
    requires Trimmed(value)
    ensures TrimSpace(if value == "" then "" else " " + value) == value
  {
    hide TrimSpace, IsSpace;
    SpaceIsSpace();
    if value == "" {
      assert "" == "" + "" + "";
      TrimSpaceOf("", "", "");
    } else {
      assert " " + value == " " + value + "";
      TrimSpaceOf(" ", value, "");
    }
  }

  function Padded(items: seq<string>): seq<string> {
    if items == [] then [] else [" " + items[0]] + Padded(items[1..])
  }

  lemma {:induction false} PaddedJoin(items: seq<string>)
    requires items != []
    ensures Padded(items) != [] && " " + Join(items, ", ") == Join(Padded(items), ",")
  {
    if |items| > 1 {
      PaddedJoin(items[1..]);
      assert Padded(items)[1..] == Padded(items[1..]);
      assert " " + (items[0] + ", " + Join(items[1..], ", ")) == (" " + items[0]) + "," + (" " + Join(items[1..], ", "));
    } else {
      assert Padded(items) == [" " + items[0]];
    }
  }

  lemma {:induction false} PaddedItems(items: seq<string>)
    requires Items(items)
    ensures NonEmpty(Padded(items)) == items
    ensures forall i | 0 <= i < |Padded(items)| :: !Contains(Padded(items)[i], ",")
  {
    hide TrimSpace, Contains, IsSpace;
    if items != [] {
      PaddedItems(items[1..]);
      OneValue(items[0]);
      OneCharacter(" " + items[0], ',');
    }
  }

  /** A rendered list is read back item by item. */
  lemma ListReads(items: seq<string>)
    requires Items(items)
    ensures Listed(if items == [] then "" else " " + Join(items, ", ")) == items
  {
    OneCharacter("", ',');
    hide TrimSpace, Contains, Unbordered, Split, Join;
    PaddedItems(items);
    if items == [] {
      SplitWhole("", ",");
      OneValue("");
    } else {
      PaddedJoin(items);
      SplitJoin(Padded(items), ",");
    }
  }

  lemma {:induction false} JoinedItems(items: seq<string>)
    requires Items(items)
    ensures OneLine(Join(items, ", ")) && (items != [] ==> Join(items, ", ") != "")
  {
    hide IsSpace;
    if |items| > 1 {
      JoinedItems(items[1..]);
      var s, last := Join(items, ", "), Join(items[1..], ", ");
      assert s[0] == items[0][0] && s[|s| - 1] == last[|last| - 1];
    }
  }

  // ------------------------------------------------------------ scanning a rendered section

  lemma ScanStep(line: string, rest: seq<string>, e: Entry, e1: Entry)
    requires Meta(e, TrimSpace(line)) == Some(e1)
    ensures Scan([line] + rest, e) == Scan(rest, e1)
  {
    hide Meta, TrimSpace;
    assert ([line] + rest)[1..] == rest;
  }

  lemma ScanBlank(rest: seq<string>, e: Entry)
    ensures Scan([""] + rest, e) == Scan(rest, e)
  {
    OneValue("");
    assert Meta(e, "") == Some(e) by {
      forall f: Field
        ensures !HasPrefix("", Word(f))
      {
        WordHasNoSpace(f);
      }
    }
    hide Meta, TrimSpace;
    ScanStep("", rest, e, e);
  }

  lemma ScanRead(f: Field, value: string, rest: seq<string>, e: Entry)
    requires Trimmed(value)
    ensures Scan([FieldLine(f, value)] + rest, e) == Scan(rest, Read(e, f, if value == "" then "" else " " + value))
  {
    hide Meta, TrimSpace, Word, FieldLine, Read, Trimmed;
    FieldLineTrims(f, value);
    var text := if value == "" then "" else " " + value;
    MetaReads(e, f, text);
    ScanStep(FieldLine(f, value), rest, e, Read(e, f, text));
  }

  /** A field written again replaces a single value. */
  lemma ScanField(f: Field, value: string, rest: seq<string>, e: Entry)
    requires f in {Kind, LogSource} && Trimmed(value)
    ensures Scan([FieldLine(f, value)] + rest, e)
         == Scan(rest, if f == Kind then e.(kind := value) else e.(logSource := value))
  {
    hide TrimSpace, FieldLine, Scan;
    ScanRead(f, value, rest, e);
    OneValue(value);
  }

  /** A list written again goes on where it was. */
  lemma ScanList(f: Field, items: seq<string>, rest: seq<string>, e: Entry)
    requires f in {Keywords, LogSignatures} && Items(items)
    ensures Scan([FieldLine(f, Join(items, ", "))] + rest, e)
         == Scan(rest, if f == Keywords then e.(keywords := e.keywords + items)
                       else e.(logSignatures := e.logSignatures + items))
  {
    JoinedItems(items);
    ListReads(items);
    var value := Join(items, ", ");
    assert value == "" <==> items == [];
    hide TrimSpace, FieldLine, Join, Listed, Items, Trimmed, Scan;
    ScanRead(f, value, rest, e);
  }

  /** The metadata of a rendered section is read back in full. */
  lemma ScanMeta(e: Entry, rest: seq<string>)
    requires Canonical(e)
    ensures Scan(MetaLines(e) + rest, Titled(e.title)) == Scan(rest, e.(body := ""))
  {
    hide FieldLine, Join, Items, Scan, NotAField, Contains;
    assert [] + e.keywords == e.keywords && [] + e.logSignatures == e.logSignatures;
    var e1 := Titled(e.title).(kind := e.kind);
    var e2 := e1.(keywords := e.keywords);
    var e3 := e2.(logSignatures := e.logSignatures);
    var source := if e.logSource == "" then [] else Written(e, LogSource);
    var signatures := if e.logSignatures == [] then [] else Written(e, LogSignatures);
    var tail2, tail3 := signatures + (source + rest), source + rest;
    var tail1 := Written(e, Keywords) + tail2;
    assert MetaLines(e) + rest == Written(e, Kind) + tail1;
    ScanField(Kind, e.kind, tail1, Titled(e.title));
    ScanList(Keywords, e.keywords, tail2, e1);
    if e.logSignatures != [] {
      ScanList(LogSignatures, e.logSignatures, tail3, e2);
    } else {
      assert tail2 == tail3;
    }
    if e.logSource != "" {
      ScanField(LogSource, e.logSource, rest, e3);
    } else {
      assert tail3 == rest;
    }
  }

  lemma FrontIsNoField(s: string, front: string)
    requires NotAField(s) && front <= s
    ensures NotAField(front)
  {
    hide Word;
    assert forall f: Field :: HasPrefix(front, Word(f)) ==> HasPrefix(s, Word(f));
  }

  /** Text that starts with something other than space or a field's word ends the scan. */
  lemma ScanStops(line: string, rest: seq<string>, e: Entry)
    requires line != "" && !IsSpace(line[0]) && NotAField(line)
    ensures Scan([line] + rest, e) == (e, [line] + rest)
  {
    var trimmed := TrimSpace(line);
    TrimmedPrefix(line);
    FrontIsNoField(line, trimmed);
    assert forall f: Field :: !HasPrefix(trimmed, Word(f));
    assert Meta(e, trimmed) == None;
    hide Meta, TrimSpace;
  }

  lemma TrimmedPrefix(s: string)
    requires s != "" && !IsSpace(s[0])
    ensures TrimSpace(s) != "" && TrimSpace(s) <= s
  {
    hide IsSpace;
    assert Leading(s, 0) == 0 && s[0..] == s;
  }

  // ------------------------------------------------------------ reading the body back

  lemma {:induction false} JoinAppend(xs: seq<string>, ys: seq<string>, sep: string)
    requires xs != [] && ys != []
    ensures Join(xs + ys, sep) == Join(xs, sep) + sep + Join(ys, sep)
  {
    if |xs| > 1 {
      JoinAppend(xs[1..], ys, sep);
      assert (xs + ys)[1..] == xs[1..] + ys;
    } else {
      assert (xs + ys)[1..] == ys;
    }
  }

  lemma TailJoins()
    ensures Join(["", RULE, ""], LINE) == "\n---\n"
    ensures Join([RULE, ""], LINE) == "---\n"
  {
    assert ["", RULE, ""][1..] == [RULE, ""] && [RULE, ""][1..] == [""];
    assert Join([""], LINE) == "";
    assert Join([RULE, ""], LINE) == "---\n";
  }

  lemma RuleIsNoSpace()
    ensures !IsSpace('-') && NotAField(RULE)
  {
    forall f: Field
      ensures !HasPrefix(RULE, Word(f))
    {
      assert Word(f)[0] != '-';
    }
  }

  /** The rule, and the space around it, go; the body stays. */
  lemma BodyReads(body: string)
    requires Trimmed(body)
    ensures TrimSpace(TrimSuffix(TrimSpace(body + (if body == "" then "" else "\n\n") + "---\n"), RULE)) == body
  {
    hide IsSpace, TrimSpace;
    SpaceIsSpace();
    RuleIsNoSpace();
    var gap := if body == "" then "" else "\n\n";
    var s := body + gap + RULE;
    assert s[0] == if body == "" then '-' else body[0];
    assert s[|s| - 1] == '-';
    assert body + gap + "---\n" == "" + s + "\n";
    TrimSpaceOf("", s, "\n");
    assert s[|s| - |RULE|..] == RULE && s[..|s| - |RULE|] == body + gap;
    assert body + gap == "" + body + gap;
    TrimSpaceOf("", body, gap);
  }

  lemma ScanBody(e: Entry, e0: Entry)
    requires Trimmed(e.body) && NotAField(e.body)
    ensures Scan(BodyLines(e), e0).0 == e0 && BodyOf(Scan(BodyLines(e), e0).1) == e.body
  {
    hide Scan, IsSpace, TrimSpace, Join, Split, NotAField, TrimSuffix;
    TailJoins();
    BodyReads(e.body);
    var lines := Split(e.body, LINE);
    assert BodyLines(e) == [""] + (lines + ["", RULE, ""]);
    ScanBlank(lines + ["", RULE, ""], e0);
    if e.body == "" {
      EmptyBody(e0);
      assert "" + "" + "---\n" == "---\n";
    } else {
      FirstLine(e.body);
      assert lines + ["", RULE, ""] == [lines[0]] + (lines[1..] + ["", RULE, ""]);
      ScanStops(lines[0], lines[1..] + ["", RULE, ""], e0);
      JoinAppend(lines, ["", RULE, ""], LINE);
      JoinSplit(e.body, LINE);
      assert e.body + LINE + "\n---\n" == e.body + "\n\n" + "---\n";
    }
  }

  lemma EmptyBody(e0: Entry)
    ensures Scan(Split("", LINE) + ["", RULE, ""], e0) == (e0, [RULE, ""])
  {
    OneCharacter("", '\n');
    SplitWhole("", LINE);
    RuleIsNoSpace();
    hide Scan, IsSpace, NotAField, Split;
    assert Split("", LINE) + ["", RULE, ""] == [""] + ([""] + ([RULE] + [""]));
    ScanBlank([""] + ([RULE] + [""]), e0);
    ScanBlank([RULE] + [""], e0);
    ScanStops(RULE, [""], e0);
    assert [RULE] + [""] == [RULE, ""];
  }

  lemma FirstLine(body: string)
    requires body != "" && Trimmed(body) && NotAField(body)
    ensures var l := Split(body, LINE)[0]; l != "" && l <= body && !IsSpace(l[0]) && NotAField(l)
  {
    var at := Index(body, LINE);
    var l := Split(body, LINE)[0];
    SpaceIsSpace();
    if at.Some? {
      assert body[at.value] == '\n' by {
        assert body[at.value..at.value + 1][0] == LINE[0];
      }
      assert l == body[..at.value];
    }
    hide IsSpace;
    assert l != "" && l[0] == body[0];
    FrontIsNoField(body, l);
  }

  // ------------------------------------------------------------ headings are lines

  lemma NextLine(l: string, rest: string)
    requires '\n' !in l
    ensures Contains(l + LINE + rest, SECTION) <==> HasPrefix(rest, HEADING) || Contains(rest, SECTION)
  {
    var s := l + LINE + rest;
    assert forall k | 0 <= k < |l| :: s[k] == l[k];
    if Contains(s, SECTION) {
      var i :| 0 <= i <= |s| && OccursAt(s, SECTION, i);
      assert s[i] == s[i..i + 4][0] == '\n';
      if i == |l| {
        assert rest[..3] == s[i..i + 4][1..] == HEADING;
      } else {
        var j := i - |l| - 1;
        assert rest[j..j + 4] == s[i..i + 4];
        assert OccursAt(rest, SECTION, j);
      }
    }
    if HasPrefix(rest, HEADING) {
      assert s[|l|..|l| + 4] == LINE + rest[..3] == SECTION;
      assert OccursAt(s, SECTION, |l|);
    }
    if Contains(rest, SECTION) {
      ContainsInside(l + LINE, rest, "", SECTION);
      assert l + LINE + rest + "" == s;
    }
  }

  predicate NoHeading(lines: seq<string>) {
    forall i | 0 <= i < |lines| :: !HasPrefix(lines[i], HEADING)
  }

  predicate SingleLines(lines: seq<string>) {
    forall i | 0 <= i < |lines| :: '\n' !in lines[i]
  }

  lemma SectionHasNewline(s: string)
    ensures Contains(s, SECTION) ==> '\n' in s
  {
    if i :| 0 <= i <= |s| && OccursAt(s, SECTION, i) {
      assert s[i] == s[i..i + 4][0] == '\n';
    }
  }

  lemma JoinStarts(lines: seq<string>)
    requires lines != []
    ensures HasPrefix(Join(lines, LINE), HEADING) <==> HasPrefix(lines[0], HEADING)
  {
    var s, l := Join(lines, LINE), lines[0];
    if HasPrefix(s, HEADING) && |lines| > 1 {
      assert s == l + (LINE + Join(lines[1..], LINE));
      assert s[|l|] == '\n';
      assert s[0] == '#' && s[1] == '#' && s[2] == ' ';
      assert l[..3] == s[..3] == HEADING;
    }
    if HasPrefix(l, HEADING) && |lines| > 1 {
      assert s[..3] == l[..3];
    }
  }

  /** A section heading in joined lines is a line, other than the first, that starts so. */
  lemma {:induction false} HeadingsAreLines(lines: seq<string>)
    requires lines != [] && SingleLines(lines)
    ensures Contains(Join(lines, LINE), SECTION) <==> !NoHeading(lines[1..])
  {
    hide HasPrefix, Contains;
    if |lines| == 1 {
      SectionHasNewline(lines[0]);
    } else {
      NextLine(lines[0], Join(lines[1..], LINE));
      JoinStarts(lines[1..]);
      HeadingsAreLines(lines[1..]);
      assert lines[1..] == [lines[1]] + lines[1..][1..];
    }
  }

  lemma LinesAreSingle(s: string)
    ensures SingleLines(Split(s, LINE))
  {
    forall i | 0 <= i < |Split(s, LINE)|
      ensures '\n' !in Split(s, LINE)[i]
    {
      PartsAreClean(s, LINE, i);
      OneCharacter(Split(s, LINE)[i], '\n');
    }
  }

  // ------------------------------------------------------------ one section read back

  function Lines(e: Entry): seq<string> {
    [e.title] + MetaLines(e) + BodyLines(e)
  }

  lemma AfterTitle(e: Entry)
    ensures Lines(e)[0] == e.title && Lines(e)[1..] == MetaLines(e) + BodyLines(e)
  {
    hide MetaLines, BodyLines;
    assert Lines(e) == [e.title] + (MetaLines(e) + BodyLines(e));
  }

  lemma WordHasNoNewline(f: Field)
    ensures '\n' !in Word(f)
  {
  }

  lemma FieldLineIsSingle(f: Field, value: string)
    requires '\n' !in value
    ensures '\n' !in FieldLine(f, value) && !HasPrefix(FieldLine(f, value), HEADING)
  {
    WordHasNoNewline(f);
    assert FieldLine(f, value)[0] == Word(f)[0] != '#';
  }

  lemma MetaLinesAmong(e: Entry, i: nat)
    requires i < |MetaLines(e)|
    ensures exists f: Field :: MetaLines(e)[i] == FieldLine(f, MetaValue(e, f))
  {
    hide FieldLine, Join;
    var f := if i == 0 then Kind
             else if i == 1 then Keywords
             else if i == 2 && e.logSignatures != [] then LogSignatures else LogSource;
    assert MetaLines(e)[i] == FieldLine(f, MetaValue(e, f));
  }

  lemma MetaValueIsSingle(e: Entry, f: Field)
    requires Canonical(e)
    ensures '\n' !in MetaValue(e, f)
  {
    JoinedItems(e.keywords);
    JoinedItems(e.logSignatures);
    hide Join, Items, Contains, NotAField, Trimmed;
  }

  lemma MetaLinesAreSingle(e: Entry)
    requires Canonical(e)
    ensures SingleLines(MetaLines(e)) && NoHeading(MetaLines(e))
  {
    hide MetaLines, Canonical, MetaValue, FieldLine, HasPrefix;
    forall i | 0 <= i < |MetaLines(e)|
      ensures '\n' !in MetaLines(e)[i] && !HasPrefix(MetaLines(e)[i], HEADING)
    {
      MetaLinesAmong(e, i);
      var f: Field :| MetaLines(e)[i] == FieldLine(f, MetaValue(e, f));
      MetaValueIsSingle(e, f);
      FieldLineIsSingle(f, MetaValue(e, f));
    }
  }

  lemma BodyLinesAreSingle(e: Entry)
    ensures SingleLines(BodyLines(e))
  {
    LinesAreSingle(e.body);
    hide Split;
  }

  lemma LinesAreLines(e: Entry)
    requires Canonical(e)
    ensures Split(RenderEntry(e), LINE) == Lines(e) && SingleLines(Lines(e))
  {
    assert '\n' !in e.title;
    hide Canonical, MetaLines, BodyLines, Split, Join;
    MetaLinesAreSingle(e);
    BodyLinesAreSingle(e);
    PlainLinesSplit(Lines(e));
  }

  lemma EntryReads(e: Entry)
    requires Canonical(e)
    ensures EntryOf(RenderEntry(e)) == e
  {
    hide Split, Scan, MetaLines, BodyLines, BodyOf, TrimSpace, RenderEntry, Contains, NotAField, Items;
    LinesAreLines(e);
    AfterTitle(e);
    TrimmedIsItself(e.title);
    ScanMeta(e, BodyLines(e));
    ScanBody(e, e.(body := ""));
  }

  lemma BodyLinesHeading(e: Entry)
    ensures NoHeading(BodyLines(e)) <==> NoHeading(Split(e.body, LINE))
  {
    hide Split, NoHeading;
    NoHeadingHere();
    NoHeadingAppend([""], Split(e.body, LINE));
    NoHeadingAppend([""] + Split(e.body, LINE), ["", RULE, ""]);
  }

  lemma HeadingOnlyInBody(e: Entry)
    requires Canonical(e)
    ensures NoHeading(Lines(e)[1..]) <==> NoHeading(Split(e.body, LINE))
  {
    MetaLinesAreSingle(e);
    BodyLinesHeading(e);
    AfterTitle(e);
    hide *;
    NoHeadingAppend(MetaLines(e), BodyLines(e));
  }

  lemma HeadingOnlyInFront(e: Entry)
    requires Canonical(e)
    ensures NoHeading(Split(e.body, LINE)) <==> !HasPrefix(e.body, HEADING)
  {
    var body := Split(e.body, LINE);
    LinesAreSingle(e.body);
    JoinSplit(e.body, LINE);
    hide Split, Join, Contains, NoHeading, SingleLines, HasPrefix, NotAField, Items;
    JoinStarts(body);
    HeadingsAreLines(body);
    assert body == [body[0]] + body[1..];
    NoHeadingAppend([body[0]], body[1..]);
    OneNoHeading(body[0]);
  }

  lemma OneNoHeading(line: string)
    ensures NoHeading([line]) <==> !HasPrefix(line, HEADING)
  {
    hide HasPrefix;
    assert [line][0] == line;
  }

  /** A rendered section stays one section exactly when its body does not start one. */
  lemma SectionStaysWhole(e: Entry)
    requires Canonical(e)
    ensures Contains(RenderEntry(e), SECTION) <==> HasPrefix(e.body, HEADING)
  {
    hide Split, Join, Contains, NoHeading, SingleLines, MetaLines, BodyLines, Canonical, HasPrefix;
    LinesAreLines(e);
    HeadingsAreLines(Lines(e));
    HeadingOnlyInBody(e);
    HeadingOnlyInFront(e);
  }

  lemma NoHeadingHere()
    ensures NoHeading([""]) && NoHeading(["", RULE, ""])
  {
    assert RULE[0] != HEADING[0];
  }

  lemma NoHeadingAppend(xs: seq<string>, ys: seq<string>)
    ensures NoHeading(xs + ys) <==> NoHeading(xs) && NoHeading(ys)
  {
    hide HasPrefix;
    assert forall i | 0 <= i < |xs| :: (xs + ys)[i] == xs[i];
    assert forall i | 0 <= i < |ys| :: (xs + ys)[|xs| + i] == ys[i];
  }

  // ------------------------------------------------------------ what the parser returns

  predicate FieldsFit(e: Entry) {
    OneLine(e.title) && OneLine(e.kind) && OneLine(e.logSource) && Items(e.keywords) && Items(e.logSignatures)
  }

  lemma TrimmedLine(line: string)
    requires '\n' !in line
    ensures OneLine(TrimSpace(line))
  {
    TrimSpaceTrims(line);
    TrimSpaceKeepsOut(line, '\n');
    hide TrimSpace, Trimmed;
  }

  lemma {:induction false} NonEmptyIsItems(parts: seq<string>)
    requires forall i | 0 <= i < |parts| :: '\n' !in parts[i] && ',' !in parts[i]
    ensures Items(NonEmpty(parts))
  {
    if parts != [] {
      TrimmedLine(parts[0]);
      TrimSpaceKeepsOut(parts[0], ',');
      NonEmptyIsItems(parts[1..]);
      hide TrimSpace, OneLine;
    }
  }

  lemma ListedIsItems(text: string)
    requires '\n' !in text
    ensures Items(Listed(text))
  {
    hide NonEmpty, Items, Split, Contains;
    var parts := Split(text, ",");
    forall i | 0 <= i < |parts|
      ensures '\n' !in parts[i] && ',' !in parts[i]
    {
      PartsAreClean(text, ",", i);
      OneCharacter(parts[i], ',');
      PartsKeepOut(text, ",", i, '\n');
    }
    NonEmptyIsItems(parts);
  }

  lemma ItemsAppend(xs: seq<string>, ys: seq<string>)
    requires Items(xs) && Items(ys)
    ensures Items(xs + ys)
  {
  }

  lemma AfterWord(line: string, f: Field)
    requires '\n' !in line
    ensures var text := TrimPrefix(TrimSpace(line), Word(f)); OneLine(TrimSpace(text)) && Items(Listed(text))
  {
    TrimSpaceKeepsOut(line, '\n');
    hide TrimSpace, Word, Listed, Items, OneLine;
    var text := TrimPrefix(TrimSpace(line), Word(f));
    assert '\n' !in text;
    TrimmedLine(text);
    ListedIsItems(text);
  }

  lemma MetaKeepsFields(e: Entry, line: string)
    requires FieldsFit(e) && '\n' !in line
    ensures var r := Meta(e, TrimSpace(line)); r.Some? ==> FieldsFit(r.value) && r.value.body == e.body
  {
    hide TrimSpace, Word, Listed, Items, OneLine, TrimPrefix, HasPrefix;
    AfterWord(line, Kind);
    AfterWord(line, Keywords);
    AfterWord(line, LogSignatures);
    AfterWord(line, LogSource);
    ItemsAppend(e.keywords, Listed(TrimPrefix(TrimSpace(line), Word(Keywords))));
    ItemsAppend(e.logSignatures, Listed(TrimPrefix(TrimSpace(line), Word(LogSignatures))));
  }

  lemma {:induction false} ScanKeepsFields(lines: seq<string>, e: Entry)
    requires FieldsFit(e) && SingleLines(lines) && NoHeading(lines)
    ensures var (e1, rest) := Scan(lines, e);
            && FieldsFit(e1) && e1.body == e.body && SingleLines(rest) && NoHeading(rest)
            && (rest != [] ==> exists e2 :: Meta(e2, TrimSpace(rest[0])).None?)
  {
    hide Meta, TrimSpace, HasPrefix, FieldsFit;
    if lines != [] {
      MetaKeepsFields(e, lines[0]);
      var r := Meta(e, TrimSpace(lines[0]));
      if r.Some? {
        ScanKeepsFields(lines[1..], r.value);
      }
    }
  }

  lemma TrimKeepsFront(s: string, p: string)
    requires p != "" && NoSpaceIn(p)
    ensures p <= TrimSpace(s) <==> p <= s[Leading(s, 0)..]
  {
    hide IsSpace;
    var t := s[Leading(s, 0)..];
    var n := Trailing(t, |t|);
    if p <= t {
      assert t[|p| - 1] == p[|p| - 1];
      assert n >= |p|;
    }
  }

  lemma SameLeading(l: string, s: string)
    requires l <= s && Leading(l, 0) < |l|
    ensures Leading(s, 0) == Leading(l, 0)
  {
    hide IsSpace;
    assert forall i | 0 <= i < |l| :: s[i] == l[i];
  }

  lemma FrontOfLine(l: string, s: string, p: string, k: nat)
    requires l <= s && (|l| < |s| ==> s[|l|] == '\n') && k <= |l|
    requires '\n' !in p && p <= s[k..]
    ensures p <= l[k..]
  {
    var t := s[k..];
    assert |l| < |s| ==> t[|l| - k] == '\n';
    assert |p| <= |l| - k;
    assert l == s[..|l|];
  }

  /** A body that starts with a field's word comes from a first line that does. */
  lemma BodyStart(rest: seq<string>, f: Field)
    requires rest != [] && TrimSpace(rest[0]) != ""
    requires HasPrefix(TrimSpace(Join(rest, LINE)), Word(f))
    ensures HasPrefix(TrimSpace(rest[0]), Word(f))
  {
    WordHasNoSpace(f);
    WordHasNoNewline(f);
    JoinedFront(rest);
    hide IsSpace, Word, Join;
    var s, l, p := Join(rest, LINE), rest[0], Word(f);
    assert Leading(l, 0) < |l|;
    hide TrimSpace;
    TrimKeepsFront(s, p);
    SameLeading(l, s);
    FrontOfLine(l, s, p, Leading(l, 0));
    TrimKeepsFront(l, p);
  }

  lemma JoinedFront(lines: seq<string>)
    requires lines != []
    ensures var s, l := Join(lines, LINE), lines[0];
            l <= s && (|l| < |s| ==> s[|l|] == '\n')
  {
  }

  lemma BodyIsFront(lines: seq<string>)
    ensures BodyOf(lines) <= TrimSpace(Join(lines, LINE))
  {
    var s := Join(lines, LINE);
    TrimSpaceTrims(s);
    OneValue("");
    hide TrimSpace, IsSpace, Join;
    var t := TrimSpace(s);
    var u := TrimSuffix(t, RULE);
    if u != "" {
      assert u[0] == t[0];
      TrimmedPrefix(u);
    }
  }

  lemma BodyHasNoSection(rest: seq<string>)
    requires SingleLines(rest) && NoHeading(rest)
    ensures !Contains(BodyOf(rest), SECTION)
  {
    if rest == [] {
      assert !Contains(Join(rest, LINE), SECTION);
    } else {
      HeadingsAreLines(rest);
    }
    hide Contains, TrimSpace, Join, TrimSuffix;
    var s := Join(rest, LINE);
    TrimmingAddsNothing(s, RULE, SECTION);
    TrimmingAddsNothing(TrimSpace(s), RULE, SECTION);
    TrimmingAddsNothing(TrimSuffix(TrimSpace(s), RULE), RULE, SECTION);
  }

  lemma BodyIsNoField(rest: seq<string>, e: Entry)
    requires rest != [] ==> Meta(e, TrimSpace(rest[0])).None?
    ensures NotAField(BodyOf(rest))
  {
    if rest == [] {
      OneValue("");
    }
    hide TrimSpace, Word, BodyOf;
    forall f: Field
      ensures !HasPrefix(TrimSpace(Join(rest, LINE)), Word(f))
    {
      WordHasNoSpace(f);
      if rest != [] {
        assert !HasPrefix(TrimSpace(rest[0]), Word(f)) && TrimSpace(rest[0]) != "";
        StartIsNoField(rest, f);
      }
    }
    BodyIsFront(rest);
    FrontIsNoField(TrimSpace(Join(rest, LINE)), BodyOf(rest));
  }

  lemma StartIsNoField(rest: seq<string>, f: Field)
    requires rest != [] && TrimSpace(rest[0]) != "" && !HasPrefix(TrimSpace(rest[0]), Word(f))
    ensures !HasPrefix(TrimSpace(Join(rest, LINE)), Word(f))
  {
    hide *;
    if HasPrefix(TrimSpace(Join(rest, LINE)), Word(f)) {
      BodyStart(rest, f);
    }
  }

  lemma BodyIsCanonical(rest: seq<string>, e: Entry)
    requires SingleLines(rest) && NoHeading(rest)
    requires rest != [] ==> Meta(e, TrimSpace(rest[0])).None?
    ensures var body := BodyOf(rest); Trimmed(body) && !Contains(body, SECTION) && NotAField(body)
  {
    TrimSpaceTrims(TrimSuffix(TrimSpace(Join(rest, LINE)), RULE));
    BodyOfIs(rest);
    hide *;
    BodyHasNoSection(rest);
    BodyIsNoField(rest, e);
  }

  lemma SectionIsCanonical(block: string)
    requires !Contains(block, SECTION) && Searchable(EntryOf(block))
    ensures Canonical(EntryOf(block))
  {
    var lines := Split(block, LINE);
    LinesAreSingle(block);
    JoinSplit(block, LINE);
    HeadingsAreLines(lines);
    TrimmedLine(lines[0]);
    var title := TrimSpace(lines[0]);
    TrimmedLine("");
    OneValue("");
    assert FieldsFit(Titled(title));
    hide Split, Join, Contains, TrimSpace, HasPrefix, Trimmed, NotAField, Items, BodyOf, Meta, Scan;
    ScanKeepsFields(lines[1..], Titled(title));
    var (e, rest) := Scan(lines[1..], Titled(title));
    if rest != [] {
      var e2 :| Meta(e2, TrimSpace(rest[0])).None?;
      BodyIsCanonical(rest, e2);
    } else {
      BodyIsCanonical(rest, e);
    }
  }

  lemma {:induction false} EntriesAreCanonical(blocks: seq<string>)
    requires forall i | 0 <= i < |blocks| :: !Contains(blocks[i], SECTION)
    ensures forall i | 0 <= i < |Entries(blocks)| :: Canonical(Entries(blocks)[i])
  {
    hide Contains, Canonical, EntryOf, Searchable;
    if blocks != [] {
      if Searchable(EntryOf(blocks[0])) {
        SectionIsCanonical(blocks[0]);
      }
      EntriesAreCanonical(blocks[1..]);
    }
  }

  /** Every entry of every document is canonical, whatever the document looks like. */
  lemma ParsedIsCanonical(data: string)
    ensures forall i | 0 <= i < |Parsed(data)| :: Canonical(Parsed(data)[i])
  {
    hide Contains, Canonical, Split, Entries;
    var blocks := Split(LINE + data, SECTION)[1..];
    forall i | 0 <= i < |blocks|
      ensures !Contains(blocks[i], SECTION)
    {
      PartsAreClean(LINE + data, SECTION, i + 1);
    }
    EntriesAreCanonical(blocks);
  }

  // ------------------------------------------------------------ writing and parsing back

  /** What the text of one rendered section parses to. */
  function Reparsed(e: Entry): seq<Entry> {
    Entries(Split(RenderEntry(e), SECTION))
  }

  function ReparsedAll(entries: seq<Entry>): seq<Entry> {
    if entries == [] then [] else ReparsedAll(entries[..|entries| - 1]) + Reparsed(entries[|entries| - 1])
  }

  lemma {:induction false} RenderingParses(intro: string, entries: seq<Entry>)
    ensures Parsed(Render(intro, entries)) == Parsed(intro) + ReparsedAll(entries)
  {
    hide Parsed, RenderEntry, Entries, Split;
    if entries != [] {
      var front, last := entries[..|entries| - 1], entries[|entries| - 1];
      RenderingParses(intro, front);
      ParsedSections(Render(intro, front), RenderEntry(last));
    }
  }

  lemma OneSection(block: string)
    requires !Contains(block, SECTION) && Searchable(EntryOf(block))
    ensures Split(block, SECTION) == [block] && Entries([block]) == [EntryOf(block)]
  {
    SplitWhole(block, SECTION);
    hide Split, EntryOf, Searchable, Contains;
    assert [block][1..] == [];
  }

  lemma WholeReparses(e: Entry)
    requires Canonical(e) && !HasPrefix(e.body, HEADING)
    ensures Reparsed(e) == [e]
  {
    assert Searchable(e);
    hide Canonical, Split, RenderEntry, EntryOf, Contains, Entries, Searchable, HasPrefix;
    SectionStaysWhole(e);
    EntryReads(e);
    OneSection(RenderEntry(e));
  }

  /** The lines of a section up to its body, as a section of their own. */
  function Head(e: Entry): seq<string> {
    [e.title] + MetaLines(e) + [""]
  }

  lemma HeadIsPlain(e: Entry)
    requires Canonical(e)
    ensures Head(e) != [] && SingleLines(Head(e)) && NoHeading(Head(e)[1..])
    ensures Head(e)[0] == e.title && Head(e)[1..] == MetaLines(e) + [""]
  {
    MetaLinesAreSingle(e);
    assert '\n' !in e.title;
    hide MetaLines, NoHeading, Canonical;
    NoHeadingHere();
    NoHeadingAppend(MetaLines(e), [""]);
    assert Head(e) == [e.title] + (MetaLines(e) + [""]);
    assert Head(e)[1..] == MetaLines(e) + [""];
  }

  lemma PlainLinesSplit(lines: seq<string>)
    requires lines != [] && SingleLines(lines)
    ensures Split(Join(lines, LINE), LINE) == lines
  {
    hide Split, Join, Contains, Unbordered;
    OneCharacter("", '\n');
    forall i | 0 <= i < |lines|
      ensures !Contains(lines[i], LINE)
    {
      OneCharacter(lines[i], '\n');
    }
    SplitJoin(lines, LINE);
  }

  lemma TrimmedIsItself(s: string)
    requires Trimmed(s)
    ensures TrimSpace(s) == s
  {
    hide TrimSpace, IsSpace;
    assert "" + s + "" == s;
    TrimSpaceOf("", s, "");
  }

  lemma NoBody()
    ensures BodyOf([]) == ""
  {
    OneValue("");
    hide TrimSpace;
  }

  lemma HeadScans(e: Entry)
    requires Canonical(e)
    ensures Scan(MetaLines(e) + [""], Titled(TrimSpace(e.title))) == (e.(body := ""), [])
    ensures BodyOf([]) == ""
  {
    NoBody();
    TrimmedIsItself(e.title);
    hide Scan, MetaLines, TrimSpace, Canonical, BodyOf;
    ScanMeta(e, [""]);
    assert [""] + [] == [""];
    ScanBlank([], e.(body := ""));
    ScanNothing(e.(body := ""));
  }

  lemma ScanNothing(e: Entry)
    ensures Scan([], e) == (e, [])
  {
  }

  lemma HeadReads(e: Entry)
    requires Canonical(e)
    ensures EntryOf(Join(Head(e), LINE)) == e.(body := "")
    ensures !Contains(Join(Head(e), LINE), SECTION)
  {
    hide Head, MetaLines, TrimSpace, Contains, BodyOf, NoHeading, Split, Scan, Join, Canonical, SingleLines;
    HeadIsPlain(e);
    PlainLinesSplit(Head(e));
    HeadingsAreLines(Head(e));
    HeadScans(e);
  }

  lemma CutAtBody(e: Entry) returns (tail: string)
    requires Canonical(e) && HasPrefix(e.body, HEADING)
    ensures RenderEntry(e) == Join(Head(e), LINE) + SECTION + tail
  {
    hide Split, Join, MetaLines, Canonical;
    var body := Split(e.body, LINE);
    JoinSplit(e.body, LINE);
    JoinStarts(body);
    var after := body + ["", RULE, ""];
    JoinStarts(after);
    JoinAppend(Head(e), after, LINE);
    assert Lines(e) == Head(e) + after;
    tail := Join(after, LINE)[3..];
    HeadingThen(Join(after, LINE));
    assert Join(Head(e), LINE) + LINE + (HEADING + tail) == Join(Head(e), LINE) + SECTION + tail;
  }

  lemma HeadingThen(s: string)
    requires HasPrefix(s, HEADING)
    ensures s == HEADING + s[3..]
  {
  }

  lemma HeadingCutsOff(e: Entry)
    requires Canonical(e) && HasPrefix(e.body, HEADING)
    ensures Reparsed(e) != [] && Reparsed(e)[0] == e.(body := "")
  {
    HeadReads(e);
    var tail := CutAtBody(e);
    var head := Join(Head(e), LINE);
    SectionIsUnbordered();
    SplitAt(head, SECTION, tail);
    OneSection(head);
    hide Split, RenderEntry, EntryOf, Entries, Contains, NotAField, Items, Join, Unbordered, HasPrefix;
    EntriesAppend([head], Split(tail, SECTION));
  }

  predicate NoBodyStartsSection(entries: seq<Entry>) {
    forall i | 0 <= i < |entries| :: !HasPrefix(entries[i].body, HEADING)
  }

  predicate AllCanonical(entries: seq<Entry>) {
    forall i | 0 <= i < |entries| :: Canonical(entries[i])
  }

  lemma {:induction false} WholeEntriesReparse(entries: seq<Entry>)
    requires AllCanonical(entries) && NoBodyStartsSection(entries)
    ensures ReparsedAll(entries) == entries
  {
    hide Canonical, HasPrefix, Reparsed;
    if entries != [] {
      WholeEntriesReparse(entries[..|entries| - 1]);
      WholeReparses(entries[|entries| - 1]);
    }
  }

  ghost predicate DiffersAt(entries: seq<Entry>, j: nat) {
    j < |entries| && j < |ReparsedAll(entries)| && ReparsedAll(entries)[j] != entries[j]
  }

  lemma DifferenceStays(entries: seq<Entry>, j: nat)
    requires entries != [] && DiffersAt(entries[..|entries| - 1], j)
    ensures DiffersAt(entries, j)
  {
    hide Reparsed;
  }

  lemma LastDiffers(entries: seq<Entry>)
    requires entries != [] && ReparsedAll(entries[..|entries| - 1]) == entries[..|entries| - 1]
    requires var last := entries[|entries| - 1]; Reparsed(last) != [] && Reparsed(last)[0] != last
    ensures DiffersAt(entries, |entries| - 1)
  {
    hide Reparsed;
  }

  lemma {:induction false} CutEntriesDiffer(entries: seq<Entry>)
    requires AllCanonical(entries) && !NoBodyStartsSection(entries)
    ensures exists j :: DiffersAt(entries, j)
  {
    hide Canonical, Reparsed, ReparsedAll, HasPrefix, DiffersAt;
    var n := |entries| - 1;
    var front, last := entries[..n], entries[n];
    if NoBodyStartsSection(front) {
      HeadingAtLast(entries);
      WholeEntriesReparse(front);
      HeadingCutsOff(last);
      LastDiffers(entries);
    } else {
      CutEntriesDiffer(front);
      var j :| DiffersAt(front, j);
      DifferenceStays(entries, j);
    }
  }

  lemma HeadingAtLast(entries: seq<Entry>)
    requires !NoBodyStartsSection(entries) && NoBodyStartsSection(entries[..|entries| - 1])
    ensures entries != [] && HasPrefix(entries[|entries| - 1].body, HEADING) && entries[|entries| - 1].body != ""
  {
    var n := |entries| - 1;
    assert forall i | 0 <= i < n :: entries[..n][i] == entries[i];
  }

  /** Entries written in the documented format after any text parse back as exactly those
      entries, precisely when no body starts with a section heading of its own. */
  lemma RoundTripIff(intro: string, entries: seq<Entry>)
    requires AllCanonical(entries)
    ensures Parsed(Render(intro, entries)) == Parsed(intro) + entries <==> NoBodyStartsSection(entries)
  {
    hide Parsed, Canonical, NoBodyStartsSection, Render, ReparsedAll;
    RenderingParses(intro, entries);
    if NoBodyStartsSection(entries) {
      WholeEntriesReparse(entries);
    } else {
      CutEntriesDiffer(entries);
      var j :| DiffersAt(entries, j);
      var before := Parsed(intro);
      assert (before + ReparsedAll(entries))[|before| + j] != (before + entries)[|before| + j];
    }
  }

  /** So for every document at all: rewriting its entries in that format and parsing again
      changes nothing, unless some body begins with an indented heading, trimmed bare. */
  lemma ReparsingIsStableIff(data: string)
    ensures Parsed(Render("", Parsed(data))) == Parsed(data) <==> NoBodyStartsSection(Parsed(data))
  {
    ParsedIsCanonical(data);
    NothingInEmptyText();
    hide Parsed, Canonical, NoBodyStartsSection, Render;
    RoundTripIff("", Parsed(data));
    assert [] + Parsed(data) == Parsed(data);
  }

  lemma NothingInEmptyText()
    ensures Parsed("") == []
  {
    assert LINE + "" == LINE;
    assert !Contains(LINE, SECTION);
    SplitWhole(LINE, SECTION);
    assert Split(LINE, SECTION)[1..] == [];
  }

  const INDENTED := ["t", FieldLine(Kind, "k"), "  ## x"]

  lemma IndentedLines()
    ensures SingleLines(INDENTED) && NoHeading(INDENTED[1..])
  {
    FieldLineIsSingle(Kind, "k");
    assert "  ## x"[0] != HEADING[0];
    hide FieldLine;
  }

  lemma IndentedTrims()
    ensures TrimSpace("  ## x") == "## x"
    ensures Meta(Titled("t").(kind := "k"), "## x") == None
    ensures BodyOf(["  ## x"]) == "## x"
  {
    assert "  " + "## x" + "" == "  ## x";
    assert Trimmed("## x") && Blank("  ");
    TrimSpaceOf("  ", "## x", "");
    TrimmedIsItself("## x");
    hide TrimSpace, Trimmed;
    forall f: Field
      ensures !HasPrefix("## x", Word(f))
    {
      assert Word(f)[0] != "## x"[0];
    }
    hide Word;
    assert TrimSuffix("## x", RULE) == "## x" by {
      assert "## x"[1..][0] != RULE[0];
    }
  }

  lemma IndentedEntry()
    ensures EntryOf(Join(INDENTED, LINE)) == Titled("t").(kind := "k", body := "## x")
  {
    IndentedLines();
    IndentedTrims();
    TrimmedIsItself("t");
    hide TrimSpace, Trimmed, Split, Join, BodyOf, FieldLine, Meta, SingleLines;
    PlainLinesSplit(INDENTED);
    assert INDENTED[1..] == [FieldLine(Kind, "k")] + ["  ## x"];
    assert Trimmed("k") by {
      KIsTrimmed();
    }
    ScanField(Kind, "k", ["  ## x"], Titled("t"));
  }

  lemma KIsTrimmed()
    ensures Trimmed("k")
  {
  }

  /** It happens: a body that begins with an indented "## x" is one entry at first, and
      loses that body when written out and parsed again. */
  lemma IndentedHeadingIsLost()
    ensures var data := HEADING + Join(INDENTED, LINE);
            && Parsed(data) == [Titled("t").(kind := "k", body := "## x")]
            && Parsed(Render("", Parsed(data))) != Parsed(data)
  {
    var block := Join(INDENTED, LINE);
    IndentedEntry();
    IndentedLines();
    var e := Titled("t").(kind := "k", body := "## x");
    assert Searchable(e);
    assert HasPrefix(e.body, HEADING) by {
      assert "## x"[..3] == HEADING;
    }
    hide Parsed, Entries, Split, EntryOf, Join, Contains, SingleLines, NoHeading, Render, HasPrefix;
    HeadingsAreLines(INDENTED);
    OneSection(block);
    ParsedFromHeading(block);
    ReparsingIsStableIff(HEADING + block);
    assert Parsed(HEADING + block)[0] == e;
  }
}
