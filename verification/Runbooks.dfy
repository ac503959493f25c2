/** The runbook catalogue: entries parsed out of one markdown document (runbooks.go). */
module Runbooks {
  import opened Wrappers
  import opened Text

  datatype Entry = Entry(
    title: string, kind: string, keywords: seq<string>, body: string,
    logSignatures: seq<string>, logSource: string)

  /** The metadata fields of a section, and the words that introduce them. */
  datatype Field = Kind | Keywords | LogSignatures | LogSource

  function Word(f: Field): string {
    match f
    case Kind => "kind:"
    case Keywords => "keywords:"
    case LogSignatures => "log_signatures:"
    case LogSource => "log_source:"
  }

  const HEADING := "## "
  const SECTION := "\n## "
  const LINE := "\n"
  const RULE := "---"

  // ------------------------------------------------------------ specification

  function NonEmpty(parts: seq<string>): seq<string> {
    if parts == [] then []
    else (if TrimSpace(parts[0]) == "" then [] else [TrimSpace(parts[0])]) + NonEmpty(parts[1..])
  }

  /** A comma-separated list, trimmed, without its empty items. */
  function Listed(text: string): seq<string> {
    NonEmpty(Split(text, ","))
  }

  /** One metadata or blank line applied to an entry; None stops the scan. */
  function Meta(e: Entry, trimmed: string): Option<Entry> {
    if HasPrefix(trimmed, Word(Kind)) then Some(e.(kind := TrimSpace(TrimPrefix(trimmed, Word(Kind)))))
    else if HasPrefix(trimmed, Word(Keywords)) then
      Some(e.(keywords := e.keywords + Listed(TrimPrefix(trimmed, Word(Keywords)))))
    else if HasPrefix(trimmed, Word(LogSignatures)) then
      Some(e.(logSignatures := e.logSignatures + Listed(TrimPrefix(trimmed, Word(LogSignatures)))))
    else if HasPrefix(trimmed, Word(LogSource)) then
      Some(e.(logSource := TrimSpace(TrimPrefix(trimmed, Word(LogSource)))))
    else if trimmed == "" then Some(e)
    else None
  }

  /** The metadata at the front of `lines`, and the lines after it. */
  function Scan(lines: seq<string>, e: Entry): (Entry, seq<string>) {
    if lines == [] then (e, [])
    else
      match Meta(e, TrimSpace(lines[0]))
      case None => (e, lines)
      case Some(e1) => Scan(lines[1..], e1)
  }

  function Titled(title: string): Entry {
    Entry(title, "", [], "", [], "")
  }

  function BodyOf(lines: seq<string>): string {
    TrimSpace(TrimSuffix(TrimSpace(Join(lines, LINE)), RULE))
  }

  function EntryOf(block: string): Entry {
    var lines := Split(block, LINE);
    var (e, rest) := Scan(lines[1..], Titled(TrimSpace(lines[0])));
    e.(body := BodyOf(rest))
  }

  predicate Searchable(e: Entry) {
    e.kind != "" || e.keywords != []
  }

  /** The entry of a section, if it can be looked up at all. */
  function Kept(block: string): seq<Entry> {
    if Searchable(EntryOf(block)) then [EntryOf(block)] else []
  }

  function Entries(blocks: seq<string>): seq<Entry> {
    if blocks == [] then [] else Kept(blocks[0]) + Entries(blocks[1..])
  }

  function Parsed(data: string): seq<Entry> {
    Entries(Split(LINE + data, SECTION)[1..])
  }

  // ------------------------------------------------------------ the parser

  method AppendListed(items: seq<string>, text: string) returns (r: seq<string>)
    ensures r == items + Listed(text)
  {
    hide TrimSpace, Split;
    r := items;
    var parts := Split(text, ",");
    for i := 0 to |parts|
      invariant items + NonEmpty(parts) == r + NonEmpty(parts[i..])
    {
      var item := TrimSpace(parts[i]);
      assert parts[i..][0] == parts[i] && parts[i..][1..] == parts[i + 1..];
      if item != "" {
        r := r + [item];
      }
    }
  }

  method ParseEntry(block: string) returns (e: Entry)
    ensures e == EntryOf(block)
  {
    hide TrimSpace, Split, Listed, Word, HasPrefix, TrimPrefix, Join, BodyOf;
    var lines := Split(block, LINE);
    e := Titled(TrimSpace(lines[0]));
    ghost var scanned := Scan(lines[1..], e);
    var i := 1;
    while i < |lines|
      invariant 1 <= i <= |lines|
      invariant Scan(lines[i..], e) == scanned
    {
      assert lines[i..][0] == lines[i] && lines[i..][1..] == lines[i + 1..];
      var trimmed := TrimSpace(lines[i]);
      if HasPrefix(trimmed, Word(Kind)) {
        e := e.(kind := TrimSpace(TrimPrefix(trimmed, Word(Kind))));
      } else if HasPrefix(trimmed, Word(Keywords)) {
        var keywords := AppendListed(e.keywords, TrimPrefix(trimmed, Word(Keywords)));
        e := e.(keywords := keywords);
      } else if HasPrefix(trimmed, Word(LogSignatures)) {
        var signatures := AppendListed(e.logSignatures, TrimPrefix(trimmed, Word(LogSignatures)));
        e := e.(logSignatures := signatures);
      } else if HasPrefix(trimmed, Word(LogSource)) {
        e := e.(logSource := TrimSpace(TrimPrefix(trimmed, Word(LogSource))));
      } else if trimmed == "" {
        // blank line: keep scanning
      } else {
        break;
      }
      i := i + 1;
    }
    assert scanned == (e, lines[i..]);
    var body := TrimSpace(Join(lines[i..], LINE));
    body := TrimSpace(TrimSuffix(body, RULE));
    assert body == BodyOf(lines[i..]) by {
      BodyOfIs(lines[i..]);
    }
    e := e.(body := body);
  }

  lemma BodyOfIs(lines: seq<string>)
    ensures BodyOf(lines) == TrimSpace(TrimSuffix(TrimSpace(Join(lines, LINE)), RULE))
  {
  }

  lemma KeptIs(block: string)
    ensures var e := EntryOf(block); Kept(block) == if e.kind == "" && |e.keywords| == 0 then [] else [e]
  {
    hide EntryOf;
  }

  lemma EntriesGrow(blocks: seq<string>, i: nat)
    requires i < |blocks|
    ensures Entries(blocks[..i + 1]) == Entries(blocks[..i]) + Kept(blocks[i])
  {
    hide Kept;
    assert blocks[..i + 1] == blocks[..i] + [blocks[i]];
    EntriesAppend(blocks[..i], [blocks[i]]);
    assert [blocks[i]][1..] == [];
  }

  method Parse(data: string) returns (entries: seq<Entry>)
    ensures entries == Parsed(data)
  {
    hide Split, EntryOf, Kept;
    entries := [];
    var blocks := Split(LINE + data, SECTION)[1..];
    assert blocks[..0] == [] && Entries([]) == [];
    for i := 0 to |blocks|
      invariant entries == Entries(blocks[..i])
    {
      hide Entries;
      EntriesGrow(blocks, i);
      KeptIs(blocks[i]);
      var e := ParseEntry(blocks[i]);
      if e.kind == "" && |e.keywords| == 0 {
        continue;
      }
      entries := entries + [e];
    }
    assert blocks[..|blocks|] == blocks;
  }

  // ------------------------------------------------------------ sections do not interfere

  lemma SectionIsUnbordered()
    ensures Unbordered(SECTION)
  {
    forall k | 0 < k < |SECTION|
      ensures SECTION[..k] != SECTION[|SECTION| - k..]
    {
      assert SECTION[..k][0] == '\n';
      assert SECTION[|SECTION| - k..][0] == SECTION[|SECTION| - k] != '\n';
    }
  }

  lemma {:induction false} EntriesAppend(xs: seq<string>, ys: seq<string>)
    ensures Entries(xs + ys) == Entries(xs) + Entries(ys)
  {
    hide Kept;
    if xs == [] {
      assert xs + ys == ys;
    } else {
      EntriesAppend(xs[1..], ys);
      hide Entries;
      assert (xs + ys)[0] == xs[0] && (xs + ys)[1..] == xs[1..] + ys;
      EntriesStep(xs + ys);
      EntriesStep(xs);
      Regroup(Entries(xs + ys), Entries(xs), Kept(xs[0]), Entries(xs[1..]), Entries(ys));
    }
  }

  lemma EntriesStep(blocks: seq<string>)
    requires blocks != []
    ensures Entries(blocks) == Kept(blocks[0]) + Entries(blocks[1..])
  {
    hide Kept;
  }

  lemma ParsedSections(d: string, rest: string)
    ensures Parsed(d + SECTION + rest) == Parsed(d) + Entries(Split(rest, SECTION))
  {
    hide Split, Unbordered, Entries;
    SectionIsUnbordered();
    assert LINE + (d + SECTION + rest) == (LINE + d) + SECTION + rest;
    SplitAt(LINE + d, SECTION, rest);
    assert (Split(LINE + d, SECTION) + Split(rest, SECTION))[1..] == Split(LINE + d, SECTION)[1..] + Split(rest, SECTION);
    EntriesAppend(Split(LINE + d, SECTION)[1..], Split(rest, SECTION));
  }

  lemma ParsedFromHeading(rest: string)
    ensures Parsed(HEADING + rest) == Entries(Split(rest, SECTION))
  {
    hide Split, Unbordered, Entries;
    SectionIsUnbordered();
    assert LINE + (HEADING + rest) == "" + SECTION + rest;
    SplitAt("", SECTION, rest);
    SplitWhole("", SECTION);
    assert ([""] + Split(rest, SECTION))[1..] == Split(rest, SECTION);
  }

  /** Parsing is compositional at every section heading, for all texts: adding, editing or
      removing a section never changes what another one parses to. */
  lemma SectionsAreIndependent(d: string, rest: string)
    ensures Parsed(d + LINE + HEADING + rest) == Parsed(d) + Parsed(HEADING + rest)
  {
    hide Parsed;
    assert d + LINE + HEADING + rest == d + SECTION + rest;
    ParsedSections(d, rest);
    ParsedFromHeading(rest);
  }
}
