/** The playbook splitter's parser: a line-driven state machine that undoes a printer. Lines are
    given as what the line patterns see in them; the patterns themselves are not modelled. */
module Playbook {
  import opened Types
  import opened Selection

  // ---- lines and records ----

  /** `category` is the mapped category of the normalised heading, if it has one. */
  datatype Family = Family(title: string, category: Option<string>)

  datatype Metadata = Metadata(ruleFile: string, status: string, severity: string)

  /** Lines that can turn up inside a body keep their text. */
  datatype Line =
    | FamilyLine(family: Family)
    | AnchorLine(id: string)
    | TitleLine(title: string, raw: string)
    | MetaLine(meta: Metadata, raw: string)
    | SubsectionLine(num: nat)                          // a single digit
    | TacticsLine(tactics: seq<string>, raw: string)    // the table row of the tactics
    | TechniqueLine(technique: string, raw: string)     // the table row of the techniques
    | EvidenceLine(text: string, raw: string)           // a bullet about acquiring or preserving something
    | TextLine(raw: string)

  datatype Record = Record(id: string, title: string, meta: Metadata, family: Option<Family>, sections: seq<seq<Line>>,
                           tactics: seq<string>, techniques: seq<string>, evidence: seq<string>)

  datatype Warning =
    | UnmappedFamily(title: string)
    | NoAnchor(title: string)
    | NoMetadata(id: string)
    | EmptySubsection(id: string, num: nat)

  /** A body line under a subsection number outside 1 to 5 is a KeyError. */
  datatype Outcome = KeyError | Parsed(records: seq<Record>, warnings: seq<Warning>)

  const NON_RULE_ANCHORS: set<string> :=
    {"how-to-use-this-playbook", "master-detection--response-matrix", "standard-4-phase-ir-workflow"}

  const DEFAULT_METADATA := Metadata("", "experimental", "medium")

  /** The white space that can occur inside a line. */
  predicate IsSpace(c: char) {
    || c in {' ', '\t', '\U{1F}', '\U{A0}', '\U{1680}', '\U{202F}', '\U{205F}', '\U{3000}'}
    || '\U{2000}' <= c <= '\U{200A}'
  }

  predicate IsBlank(l: Line) { l.TextLine? && forall i | 0 <= i < |l.raw| :: IsSpace(l.raw[i]) }

  predicate EndsRule(l: Line) { l.FamilyLine? || l.AnchorLine? }

  // ---- pieces of one rule ----

  /** The lines up to the next family heading, anchor or the end. */
  function Body(rest: seq<Line>): (b: seq<Line>)
    ensures b <= rest && (|b| < |rest| ==> EndsRule(rest[|b|])) && forall l | l in b :: !EndsRule(l)
  {
    if rest == [] || EndsRule(rest[0]) then [] else [rest[0]] + Body(rest[1..])
  }

  function SkipBlank(rest: seq<Line>): (r: seq<Line>)
    ensures |r| <= |rest|
  {
    if rest != [] && IsBlank(rest[0]) then SkipBlank(rest[1..]) else rest
  }

  /** The body lines under subsection `num`, wherever its heading appears. */
  function Under(body: seq<Line>, current: Option<nat>, num: nat): seq<Line> {
    if body == [] then []
    else if body[0].SubsectionLine? then Under(body[1..], Some(body[0].num), num)
    else if current == Some(num) then [body[0]] + Under(body[1..], current, num)
    else Under(body[1..], current, num)
  }

  predicate OffTheChart(current: Option<nat>) { current.Some? && !(1 <= current.value <= 5) }

  predicate Overflows(body: seq<Line>, current: Option<nat>) {
    body != [] &&
    if body[0].SubsectionLine? then Overflows(body[1..], Some(body[0].num))
    else OffTheChart(current) || Overflows(body[1..], current)
  }

  /** strip("\n") of the joined lines: empty lines go, other whitespace stays. */
  function TrimFront(body: seq<Line>): seq<Line> {
    if body != [] && body[0] == TextLine("") then TrimFront(body[1..]) else body
  }

  function TrimBack(body: seq<Line>): seq<Line> {
    if body != [] && body[|body| - 1] == TextLine("") then TrimBack(body[..|body| - 1]) else body
  }

  function Trim(body: seq<Line>): seq<Line> { TrimBack(TrimFront(body)) }

  function Trimmed(bodies: seq<seq<Line>>): seq<seq<Line>> {
    seq(|bodies|, k requires 0 <= k < |bodies| => Trim(bodies[k]))
  }

  function Subsections(body: seq<Line>): seq<seq<Line>> { seq(5, k requires 0 <= k < 5 => Under(body, None, k + 1)) }

  /** The tactics of the last row that names some. */
  function LastTactics(lines: seq<Line>): seq<string> {
    if lines == [] then []
    else if lines[|lines| - 1].TacticsLine? then lines[|lines| - 1].tactics
    else LastTactics(lines[..|lines| - 1])
  }

  /** The technique cell of the last row that has one, as a list of at most one. */
  function LastTechnique(lines: seq<Line>): (techniques: seq<string>)
    ensures |techniques| <= 1
  {
    if lines == [] then []
    else if lines[|lines| - 1].TechniqueLine? then [lines[|lines| - 1].technique]
    else LastTechnique(lines[..|lines| - 1])
  }

  function EvidenceIn(lines: seq<Line>): seq<string> {
    if lines == [] then []
    else
      var last := lines[|lines| - 1];
      EvidenceIn(lines[..|lines| - 1]) + if last.EvidenceLine? then [last.text] else []
  }

  /** One rule's record, from the lines under its five subsections. */
  function RecordOf(id: string, title: string, meta: Metadata, family: Option<Family>, bodies: seq<seq<Line>>): Record
    requires |bodies| == 5
  {
    Record(id, title, meta, family, Trimmed(bodies), LastTactics(bodies[0]), LastTechnique(bodies[0]),
           EvidenceIn(bodies[4]))
  }

  function EmptySections(id: string, sections: seq<seq<Line>>): seq<Warning> {
    if sections == [] then []
    else
      var n := |sections| - 1;
      EmptySections(id, sections[..n]) + if sections[n] == [] then [EmptySubsection(id, n + 1)] else []
  }

  // ---- the specification of the parser ----

  function With(records: seq<Record>, warnings: seq<Warning>, later: Outcome): Outcome {
    if later.KeyError? then KeyError else Parsed(records + later.records, warnings + later.warnings)
  }

  function ParseRest(rest: seq<Line>, family: Option<Family>, anchor: Option<string>): Outcome
    decreases |rest|, 0
  {
    if rest == [] then Parsed([], [])
    else match rest[0]
      case FamilyLine(f) =>
        Headed(f, ParseRest(rest[1..], Some(f), anchor))
      case AnchorLine(id) => ParseRest(rest[1..], family, Some(id))
      case TitleLine(title, _) =>
        if anchor.None? then With([], [NoAnchor(title)], ParseRest(rest[1..], family, None))
        else if anchor.value in NON_RULE_ANCHORS then ParseRest(rest[1..], family, None)
        else ParseRule(rest[1..], family, anchor.value, title)
      case _ => ParseRest(rest[1..], family, anchor)
  }

  function ParseRule(rest: seq<Line>, family: Option<Family>, id: string, title: string): Outcome
    decreases |rest|, 2
  {
    var afterGap := SkipBlank(rest);
    if afterGap != [] && afterGap[0].MetaLine?
    then ParseBody(afterGap[1..], family, id, title, afterGap[0].meta, [])
    else ParseBody(afterGap, family, id, title, DEFAULT_METADATA, [NoMetadata(id)])
  }

  function ParseBody(rest: seq<Line>, family: Option<Family>, id: string, title: string, meta: Metadata,
                     warnings: seq<Warning>): Outcome
    decreases |rest|, 1
  {
    var body := Body(rest);
    if Overflows(body, None) then KeyError
    else
      var record := RecordOf(id, title, meta, family, Subsections(body));
      With([record], warnings + EmptySections(id, record.sections), ParseRest(rest[|body|..], family, None))
  }

  // ---- parse() ----

  method SkipBlankLines(lines: seq<Line>, start: nat) returns (i: nat)
    requires start <= |lines|
    ensures start <= i <= |lines| && lines[i..] == SkipBlank(lines[start..])
  {
    i := start;
    while i < |lines| && IsBlank(lines[i])
      invariant start <= i <= |lines| && SkipBlank(lines[i..]) == SkipBlank(lines[start..])
    {
      assert lines[i..][1..] == lines[i + 1..];
      i := i + 1;
    }
  }

  /** What has been collected, with what the remaining lines still add, is what the body holds. */
  ghost predicate Collected(subsections: seq<seq<Line>>, rest: seq<Line>, current: Option<nat>, body: seq<Line>) {
    && |subsections| == 5 && Overflows(rest, current) == Overflows(body, None)
    && forall k: nat | k < 5 :: subsections[k] + Under(rest, current, k + 1) == Under(body, None, k + 1)
  }

  function NextCurrent(current: Option<nat>, line: Line): Option<nat> {
    if line.SubsectionLine? then Some(line.num) else current
  }

  predicate FallsOff(current: Option<nat>, line: Line) { !line.SubsectionLine? && OffTheChart(current) }

  /** The subsections with one more line filed. */
  function Filed(subsections: seq<seq<Line>>, current: Option<nat>, line: Line): seq<seq<Line>>
    requires |subsections| == 5 && !FallsOff(current, line)
  {
    if line.SubsectionLine? || current.None? then subsections
    else subsections[current.value - 1 := subsections[current.value - 1] + [line]]
  }

  lemma CollectedNone(body: seq<Line>)
    ensures Collected([[], [], [], [], []], body, None, body)
  {}

  lemma BodyAhead(lines: seq<Line>, i: nat)
    requires i < |lines| && !EndsRule(lines[i])
    ensures Body(lines[i..]) == [lines[i]] + Body(lines[i + 1..])
  {
    assert lines[i..][1..] == lines[i + 1..];
  }

  lemma CollectOne(subsections: seq<seq<Line>>, line: Line, rest: seq<Line>, current: Option<nat>, body: seq<Line>)
    requires Collected(subsections, [line] + rest, current, body)
    ensures if FallsOff(current, line) then Overflows(body, None)
            else Collected(Filed(subsections, current, line), rest, NextCurrent(current, line), body)
  {
    assert ([line] + rest)[1..] == rest;
    if !line.SubsectionLine? && current.Some? && !OffTheChart(current) {
      var at := current.value - 1;
      var filed := subsections[at];
      assert filed + [line] + Under(rest, current, at + 1) == filed + ([line] + Under(rest, current, at + 1));
    }
  }

  lemma CollectedAll(subsections: seq<seq<Line>>, current: Option<nat>, body: seq<Line>)
    requires Collected(subsections, [], current, body)
    ensures subsections == Subsections(body) && !Overflows(body, None)
  {
    forall k: nat | k < 5 ensures subsections[k] == Under(body, None, k + 1) {
      assert subsections[k] + [] == subsections[k];
    }
  }

  /** A heading changes the subsection in force; any other line is filed under it. */
  method FileLine(before: seq<seq<Line>>, under: Option<nat>, line: Line)
    returns (ok: bool, subsections: seq<seq<Line>>, current: Option<nat>)
    requires |before| == 5
    ensures ok <==> !FallsOff(under, line)
    ensures ok ==> subsections == Filed(before, under, line) && current == NextCurrent(under, line)
  {
    ok, subsections, current := true, before, under;
    if line.SubsectionLine? {
      current := Some(line.num);
    } else if current.Some? {
      if !(1 <= current.value <= 5) {
        return false, before, under;
      }
      var at := current.value - 1;
      subsections := subsections[at := subsections[at] + [line]];
    }
  }

  /** Collects the subsections of one rule; fails on a line under a number without a section. */
  method CollectSubsections(lines: seq<Line>, start: nat) returns (ok: bool, subsections: seq<seq<Line>>, i: nat)
    requires start <= |lines|
    ensures ok <==> !Overflows(Body(lines[start..]), None)
    ensures ok ==> i == start + |Body(lines[start..])| && |subsections| == 5
    ensures ok ==> subsections == Subsections(Body(lines[start..]))
  {
    ghost var body := Body(lines[start..]);
    subsections := [[], [], [], [], []];
    CollectedNone(body);
    var current: Option<nat> := None;
    i := start;
    while i < |lines| && !EndsRule(lines[i])
      invariant start <= i <= |lines| && i + |Body(lines[i..])| == start + |body|
      invariant Collected(subsections, Body(lines[i..]), current, body)
    {
      var line := lines[i];
      BodyAhead(lines, i);
      CollectOne(subsections, line, Body(lines[i + 1..]), current, body);
      ok, subsections, current := FileLine(subsections, current, line);
      if !ok {
        return;
      }
      i := i + 1;
    }
    CollectedAll(subsections, current, body);
    ok := true;
  }

  lemma WithTwice(r: seq<Record>, w: seq<Warning>, s: seq<Record>, x: seq<Warning>, later: Outcome)
    ensures With(r, w, With(s, x, later)) == With(r + s, w + x, later)
    ensures With([], [], later) == later
  {
    if later.Parsed? {
      assert r + (s + later.records) == r + s + later.records;
      assert w + (x + later.warnings) == w + x + later.warnings;
      assert [] + later.records == later.records && [] + later.warnings == later.warnings;
    }
  }

  method Parse(lines: seq<Line>) returns (outcome: Outcome)
    ensures outcome == ParseRest(lines, None, None)
  {
    var records: seq<Record>, warnings: seq<Warning> := [], [];
    var family: Option<Family>, anchor: Option<string> := None, None;
    var i := 0;
    ghost var whole := ParseRest(lines, None, None);
    assert lines[0..] == lines;
    WithTwice([], [], [], [], whole);
    while i < |lines|
      invariant i <= |lines|
      invariant With(records, warnings, ParseRest(lines[i..], family, anchor)) == whole
    {
      var line := lines[i];
      assert lines[i..][1..] == lines[i + 1..];
      ghost var later := ParseRest(lines[i..], family, anchor);
      match line {
        case FamilyLine(f) =>
          family := Some(f);
          ghost var before := warnings;
          if f.category.None? { warnings := warnings + [UnmappedFamily(f.title)]; }
          i := i + 1;
          WithTwice(records, before, [], if f.category.None? then [UnmappedFamily(f.title)] else [],
                    ParseRest(lines[i..], family, anchor));
        case AnchorLine(id) =>
          anchor := Some(id);
          i := i + 1;
        case TitleLine(title, _) =>
          i := i + 1;
          if anchor.None? {
            WithTwice(records, warnings, [], [NoAnchor(title)], ParseRest(lines[i..], family, None));
            warnings := warnings + [NoAnchor(title)];
          } else if anchor.value in NON_RULE_ANCHORS {
            anchor := None;
          } else {
            var ok, record, found, next := ParseOneRule(lines, i, family, anchor.value, title);
            if !ok { return KeyError; }
            WithTwice(records, warnings, [record], found, ParseRest(lines[next..], family, None));
            records, warnings := records + [record], warnings + found;
            anchor, i := None, next;
          }
        case _ =>
          i := i + 1;
      }
    }
    outcome := Parsed(records, warnings);
  }

  /** The inner part of parse(): from the line after a rule heading to the end of the rule. */
  method ParseOneRule(lines: seq<Line>, start: nat, family: Option<Family>, id: string, title: string)
    returns (ok: bool, record: Record, warnings: seq<Warning>, i: nat)
    requires start <= |lines|
    ensures ok ==> start <= i <= |lines|
    ensures ParseRule(lines[start..], family, id, title) ==
      if ok then With([record], warnings, ParseRest(lines[i..], family, None)) else KeyError
  {
    i := SkipBlankLines(lines, start);
    var meta;
    if i < |lines| && lines[i].MetaLine? {
      meta, warnings := lines[i].meta, [];
      assert lines[i..][1..] == lines[i + 1..];
      i := i + 1;
    } else {
      meta, warnings := DEFAULT_METADATA, [NoMetadata(id)];
    }
    ok, record, warnings, i := FinishRule(lines, i, family, id, title, meta, warnings);
  }

  method FinishRule(lines: seq<Line>, start: nat, family: Option<Family>, id: string, title: string, meta: Metadata,
                    before: seq<Warning>)
    returns (ok: bool, record: Record, warnings: seq<Warning>, i: nat)
    requires start <= |lines|
    ensures ok ==> start <= i <= |lines|
    ensures ParseBody(lines[start..], family, id, title, meta, before)
      == if ok then With([record], warnings, ParseRest(lines[i..], family, None)) else KeyError
  {
    ghost var body := Body(lines[start..]);
    var subsections;
    ok, subsections, i := CollectSubsections(lines, start);
    if !ok {
      return false, Record(id, title, meta, family, [], [], [], []), [], i;
    }
    assert lines[start..][|body|..] == lines[i..];
    var sections, empty := BuildSections(id, subsections);
    warnings := before + empty;
    var evidence := CollectEvidence(subsections[4]);
    var tactics, techniques := ExtractMitre(subsections[0]);
    record := Record(id, title, meta, family, sections, tactics, techniques, evidence);
  }

  method BuildSections(id: string, subsections: seq<seq<Line>>)
    returns (sections: seq<seq<Line>>, warnings: seq<Warning>)
    requires |subsections| == 5
    ensures sections == Trimmed(subsections) && warnings == EmptySections(id, sections)
  {
    sections, warnings := [], [];
    for num := 0 to 5
      invariant |sections| == num && forall k: nat | k < num :: sections[k] == Trim(subsections[k])
      invariant warnings == EmptySections(id, sections)
    {
      var text := Trim(subsections[num]);
      ghost var before := sections;
      if text == [] { warnings := warnings + [EmptySubsection(id, num + 1)]; }
      sections := sections + [text];
      assert sections[..num] == before;
    }
  }

  /** extract_mitre: later rows replace earlier ones. */
  method ExtractMitre(lines: seq<Line>) returns (tactics: seq<string>, techniques: seq<string>)
    ensures tactics == LastTactics(lines) && techniques == LastTechnique(lines)
  {
    tactics, techniques := [], [];
    for i := 0 to |lines|
      invariant tactics == LastTactics(lines[..i]) && techniques == LastTechnique(lines[..i])
    {
      assert lines[..i + 1][..i] == lines[..i];
      if lines[i].TacticsLine? { tactics := lines[i].tactics; }
      if lines[i].TechniqueLine? { techniques := [lines[i].technique]; }
    }
    assert lines[..|lines|] == lines;
  }

  method CollectEvidence(lines: seq<Line>) returns (evidence: seq<string>)
    ensures evidence == EvidenceIn(lines)
  {
    evidence := [];
    for i := 0 to |lines|
      invariant evidence == EvidenceIn(lines[..i])
    {
      assert lines[..i + 1][..i] == lines[..i];
      if lines[i].EvidenceLine? { evidence := evidence + [lines[i].text]; }
    }
    assert lines[..|lines|] == lines;
  }

  // ---- the printer ----

  /** `gap` are blank lines before the metadata line, `preamble` lines before the first subsection. */
  datatype Entry = Entry(id: string, title: string, raw: string, meta: Option<Metadata>, metaRaw: string,
                         gap: seq<Line>, preamble: seq<Line>, bodies: seq<seq<Line>>)

  /** The playbook's own chapters, which have anchors but are not rules. */
  datatype ChapterName = HowToUse | ResponseMatrix | Workflow

  function AnchorOf(c: ChapterName): string {
    match c
    case HowToUse => "how-to-use-this-playbook"
    case ResponseMatrix => "master-detection--response-matrix"
    case Workflow => "standard-4-phase-ir-workflow"
  }

  predicate NamesAChapter(id: string) { id in {AnchorOf(HowToUse), AnchorOf(ResponseMatrix), AnchorOf(Workflow)} }

  datatype Item =
    | FamilyHeading(family: Family, prose: seq<Line>)
    | Rule(entry: Entry)
    | Chapter(chapter: ChapterName, title: string, raw: string, prose: seq<Line>)
    | Stray(title: string, raw: string, prose: seq<Line>)                 // a rule heading without an anchor

  predicate IsBodyLine(l: Line) { !l.FamilyLine? && !l.AnchorLine? && !l.SubsectionLine? }

  predicate IsProse(lines: seq<Line>) { forall l | l in lines :: !l.FamilyLine? && !l.AnchorLine? && !l.TitleLine? }

  predicate WellFormed(item: Item) {
    match item
    case FamilyHeading(_, prose) => IsProse(prose)
    case Chapter(_, _, _, prose) => IsProse(prose)
    case Stray(_, _, prose) => IsProse(prose)
    case Rule(e) =>
      && !NamesAChapter(e.id) && |e.bodies| == 5
      && (e.meta.None? && e.preamble != [] ==> !IsBlank(e.preamble[0]) && !e.preamble[0].MetaLine?)
      && (forall l | l in e.gap :: IsBlank(l)) && (forall l | l in e.preamble :: IsBodyLine(l))
      && (forall b, l | b in e.bodies && l in b :: IsBodyLine(l))
  }

  /** Right after a rule, a heading without an anchor would belong to the rule's body. */
  ghost predicate Printable(items: seq<Item>) {
    && (forall i | 0 <= i < |items| :: WellFormed(items[i]))
    && (forall i | 0 < i < |items| && items[i].Stray? :: !items[i - 1].Rule?)
  }

  function PrintMeta(e: Entry): seq<Line> { if e.meta.Some? then [MetaLine(e.meta.value, e.metaRaw)] else [] }

  function PrintBodies(bodies: seq<seq<Line>>, first: nat): seq<Line> {
    if bodies == [] then [] else [SubsectionLine(first)] + bodies[0] + PrintBodies(bodies[1..], first + 1)
  }

  function PrintItem(item: Item): seq<Line> {
    match item
    case FamilyHeading(f, prose) => [FamilyLine(f)] + prose
    case Chapter(chapter, title, raw, prose) => [AnchorLine(AnchorOf(chapter)), TitleLine(title, raw)] + prose
    case Stray(title, raw, prose) => [TitleLine(title, raw)] + prose
    case Rule(e) =>
      [AnchorLine(e.id), TitleLine(e.title, e.raw)] + e.gap + PrintMeta(e) + e.preamble + PrintBodies(e.bodies, 1)
  }

  function Print(items: seq<Item>): seq<Line> {
    if items == [] then [] else PrintItem(items[0]) + Print(items[1..])
  }

  // ---- what parsing a printed document must give ----

  /** A rule's own record and warnings, and then the rest. */
  function Read(e: Entry, family: Option<Family>, later: Outcome): Outcome
    requires |e.bodies| == 5
  {
    With([RecordRead(e, family)], MetaWarnings(e) + EmptySections(e.id, Trimmed(e.bodies)), later)
  }

  function MetaOf(e: Entry): Metadata { if e.meta.Some? then e.meta.value else DEFAULT_METADATA }

  function MetaWarnings(e: Entry): seq<Warning> { if e.meta.Some? then [] else [NoMetadata(e.id)] }

  function Headed(f: Family, later: Outcome): Outcome {
    With([], if f.category.None? then [UnmappedFamily(f.title)] else [], later)
  }

  function Expected(items: seq<Item>, family: Option<Family>): Outcome
    requires forall i | 0 <= i < |items| :: WellFormed(items[i])
  {
    if items == [] then Parsed([], [])
    else
      assert WellFormed(items[0]);
      match items[0]
      case FamilyHeading(f, _) => Headed(f, Expected(items[1..], Some(f)))
      case Chapter(_, _, _, _) => Expected(items[1..], family)
      case Stray(title, _, _) => With([], [NoAnchor(title)], Expected(items[1..], family))
      case Rule(e) => Read(e, family, Expected(items[1..], family))
  }

  // ---- the parser undoes the printer ----

  lemma {:induction false} BodyStopsAt(inside: seq<Line>, after: seq<Line>)
    requires (forall l | l in inside :: !EndsRule(l)) && (after == [] || EndsRule(after[0]))
    ensures Body(inside + after) == inside
  {
    if inside == [] {
      assert inside + after == after;
    } else {
      assert inside[0] in inside && (inside + after)[0] == inside[0] && (inside + after)[1..] == inside[1..] + after;
      BodyStopsAt(inside[1..], after);
    }
  }

  lemma {:induction false} GapIsSkipped(gap: seq<Line>, after: seq<Line>)
    requires (forall l | l in gap :: IsBlank(l)) && after != [] && !IsBlank(after[0])
    ensures SkipBlank(gap + after) == after
  {
    if gap == [] {
      assert gap + after == after;
    } else {
      assert gap[0] in gap && (gap + after)[0] == gap[0] && (gap + after)[1..] == gap[1..] + after;
      GapIsSkipped(gap[1..], after);
    }
  }

  /** Plain body lines stay under the current subsection. */
  lemma {:induction false} UnderCurrent(lines: seq<Line>, after: seq<Line>, current: Option<nat>, num: nat)
    requires forall l | l in lines :: IsBodyLine(l)
    ensures Under(lines + after, current, num) ==
      if current == Some(num) then lines + Under(after, current, num) else Under(after, current, num)
    ensures !OffTheChart(current) ==> Overflows(lines + after, current) == Overflows(after, current)
  {
    var rest := Under(after, current, num);
    if lines == [] {
      assert lines + after == after && lines + rest == rest;
    } else {
      assert (lines + after)[1..] == lines[1..] + after && (lines + after)[0] == lines[0] && IsBodyLine(lines[0]);
      assert [lines[0]] + (lines[1..] + rest) == lines + rest;
      UnderCurrent(lines[1..], after, current, num);
    }
  }

  /** One printed subsection and what follows it. */
  lemma UnderOneBody(body: seq<Line>, later: seq<Line>, first: nat, current: Option<nat>, num: nat)
    requires (forall l | l in body :: IsBodyLine(l)) && 1 <= first <= 5
    ensures var rest := Under(later, Some(first), num);
      Under([SubsectionLine(first)] + body + later, current, num) == if first == num then body + rest else rest
    ensures Overflows([SubsectionLine(first)] + body + later, current) == Overflows(later, Some(first))
  {
    var lines := [SubsectionLine(first)] + body + later;
    assert lines[0] == SubsectionLine(first) && lines[1..] == body + later;
    UnderCurrent(body, later, Some(first), num);
  }

  /** The body printed under `num`, when numbering starts at `first`. */
  function Numbered(bodies: seq<seq<Line>>, first: nat, num: nat): seq<Line> {
    if first <= num < first + |bodies| then bodies[num - first] else []
  }

  lemma NumberedShifts(bodies: seq<seq<Line>>, first: nat, num: nat)
    requires bodies != []
    ensures Numbered(bodies, first, num) == if num == first then bodies[0] else Numbered(bodies[1..], first + 1, num)
    ensures Numbered(bodies[1..], first + 1, first) == []
  {}

  lemma {:induction false} UnderPrinted(bodies: seq<seq<Line>>, first: nat, current: Option<nat>, num: nat)
    requires forall b, l | b in bodies && l in b :: IsBodyLine(l)
    requires 1 <= first && first + |bodies| <= 6
    ensures Under(PrintBodies(bodies, first), current, num) == Numbered(bodies, first, num)
    ensures !Overflows(PrintBodies(bodies, first), current)
  {
    if bodies != [] {
      assert bodies[0] in bodies && forall b | b in bodies[1..] :: b in bodies;
      UnderOneBody(bodies[0], PrintBodies(bodies[1..], first + 1), first, current, num);
      UnderPrinted(bodies[1..], first + 1, Some(first), num);
      NumberedShifts(bodies, first, num);
      assert bodies[0] + [] == bodies[0];
    }
  }

  lemma {:induction false} PrintedHasNoEnd(bodies: seq<seq<Line>>, first: nat)
    requires forall b, l | b in bodies && l in b :: IsBodyLine(l)
    ensures forall l | l in PrintBodies(bodies, first) :: !EndsRule(l)
  {
    if bodies != [] {
      assert bodies[0] in bodies;
      PrintedHasNoEnd(bodies[1..], first + 1);
    }
  }

  lemma {:induction false} ProseIsIgnored(prose: seq<Line>, after: seq<Line>, family: Option<Family>,
                                          anchor: Option<string>)
    requires IsProse(prose)
    ensures ParseRest(prose + after, family, anchor) == ParseRest(after, family, anchor)
  {
    if prose == [] {
      assert prose + after == after;
    } else {
      assert prose[0] in prose && (prose + after)[0] == prose[0] && (prose + after)[1..] == prose[1..] + after;
      ProseIsIgnored(prose[1..], after, family, anchor);
    }
  }

  lemma UnderInside(e: Entry, k: nat)
    requires WellFormed(Rule(e)) && k < 5
    ensures
      var inside := e.preamble + PrintBodies(e.bodies, 1);
      Under(inside, None, k + 1) == e.bodies[k] && !Overflows(inside, None)
  {
    UnderCurrent(e.preamble, PrintBodies(e.bodies, 1), None, k + 1);
    UnderPrinted(e.bodies, 1, None, k + 1);
  }

  /** The body of a printed rule, read back. */
  lemma BodyIsReadBack(e: Entry)
    requires WellFormed(Rule(e))
    ensures var inside := e.preamble + PrintBodies(e.bodies, 1);
      !Overflows(inside, None) && Subsections(inside) == e.bodies && forall l | l in inside :: !EndsRule(l)
  {
    var printed := PrintBodies(e.bodies, 1);
    var inside := e.preamble + printed;
    PrintedHasNoEnd(e.bodies, 1);
    forall k: nat | k < 5 ensures Under(inside, None, k + 1) == e.bodies[k] { UnderInside(e, k); }
    UnderInside(e, 0);
    assert Subsections(inside) == e.bodies;
    forall l | l in inside ensures !EndsRule(l) { assert l in e.preamble || l in printed; }
  }

  /** A printed rule's own body, after its metadata line, up to what follows. */
  lemma RuleBodyIsParsed(e: Entry, after: seq<Line>, family: Option<Family>, meta: Metadata, warnings: seq<Warning>)
    requires WellFormed(Rule(e)) && (after == [] || EndsRule(after[0]))
    ensures ParseBody(e.preamble + PrintBodies(e.bodies, 1) + after, family, e.id, e.title, meta, warnings) ==
      With([RecordOf(e.id, e.title, meta, family, e.bodies)], warnings + EmptySections(e.id, Trimmed(e.bodies)),
           ParseRest(after, family, None))
  {
    var inside := e.preamble + PrintBodies(e.bodies, 1);
    BodyIsReadBack(e);
    BodyStopsAt(inside, after);
    assert (inside + after)[|inside|..] == after;
  }

  lemma MetaIsParsed(e: Entry, after: seq<Line>, family: Option<Family>)
    requires WellFormed(Rule(e)) && (after == [] || EndsRule(after[0]))
    ensures
      var inside := e.preamble + PrintBodies(e.bodies, 1) + after;
      ParseRule(e.gap + (PrintMeta(e) + inside), family, e.id, e.title) ==
      ParseBody(inside, family, e.id, e.title, MetaOf(e), MetaWarnings(e))
  {
    var inside := e.preamble + PrintBodies(e.bodies, 1) + after;
    assert inside[0] == if e.preamble == [] then SubsectionLine(1) else e.preamble[0];
    assert e.meta.None? ==> PrintMeta(e) + inside == inside;
    assert e.meta.Some? ==> (PrintMeta(e) + inside)[1..] == inside;
    GapIsSkipped(e.gap, PrintMeta(e) + inside);
  }

  lemma Regroup(a: seq<Line>, b: seq<Line>, c: seq<Line>)
    ensures a + b + c == a + (b + c)
  {}

  lemma RuleHasItsTitle(e: Entry, after: seq<Line>)
    ensures PrintItem(Rule(e)) + after ==
      [AnchorLine(e.id)] + ([TitleLine(e.title, e.raw)] +
      (e.gap + (PrintMeta(e) + (e.preamble + PrintBodies(e.bodies, 1) + after))))
  {
    var head, bodies := [AnchorLine(e.id), TitleLine(e.title, e.raw)], PrintBodies(e.bodies, 1);
    Regroup(head + e.gap + PrintMeta(e), e.preamble, bodies);
    Regroup(head + e.gap + PrintMeta(e), e.preamble + bodies, after);
    Regroup(head + e.gap, PrintMeta(e), e.preamble + bodies + after);
    Regroup(head, e.gap, PrintMeta(e) + (e.preamble + bodies + after));
    assert head == [head[0]] + [head[1]];
    Regroup([head[0]], [head[1]], e.gap + (PrintMeta(e) + (e.preamble + bodies + after)));
  }

  lemma RuleIsParsed(e: Entry, after: seq<Line>, family: Option<Family>)
    requires WellFormed(Rule(e)) && (after == [] || EndsRule(after[0]))
    ensures ParseRest(PrintItem(Rule(e)) + after, family, None) == Read(e, family, ParseRest(after, family, None))
  {
    var onwards := e.gap + (PrintMeta(e) + (e.preamble + PrintBodies(e.bodies, 1) + after));
    var titled := [TitleLine(e.title, e.raw)] + onwards;
    RuleHasItsTitle(e, after);
    assert ([AnchorLine(e.id)] + titled)[1..] == titled && titled[1..] == onwards;
    assert ParseRest([AnchorLine(e.id)] + titled, family, None) == ParseRest(titled, family, Some(e.id));
    assert ParseRest(titled, family, Some(e.id)) == ParseRule(onwards, family, e.id, e.title);
    MetaIsParsed(e, after, family);
    RuleBodyIsParsed(e, after, family, MetaOf(e), MetaWarnings(e));
  }

  lemma HeadingIsParsed(f: Family, prose: seq<Line>, after: seq<Line>, family: Option<Family>)
    requires IsProse(prose)
    ensures
      ParseRest(PrintItem(FamilyHeading(f, prose)) + after, family, None) == Headed(f, ParseRest(after, Some(f), None))
  {
    var lines := PrintItem(FamilyHeading(f, prose)) + after;
    assert lines[1..] == prose + after;
    ProseIsIgnored(prose, after, Some(f), None);
  }

  lemma ChapterIsParsed(c: Item, after: seq<Line>, family: Option<Family>)
    requires c.Chapter? && WellFormed(c)
    ensures ParseRest(PrintItem(c) + after, family, None) == ParseRest(after, family, None)
  {
    var lines := PrintItem(c) + after;
    assert lines[1..] == [TitleLine(c.title, c.raw)] + (c.prose + after);
    assert ParseRest(lines, family, None) == ParseRest(lines[1..], family, Some(AnchorOf(c.chapter)));
    assert lines[1..][1..] == c.prose + after;
    ProseIsIgnored(c.prose, after, family, None);
  }

  lemma StrayIsParsed(x: Item, after: seq<Line>, family: Option<Family>)
    requires x.Stray? && WellFormed(x)
    ensures ParseRest(PrintItem(x) + after, family, None) ==
            With([], [NoAnchor(x.title)], ParseRest(after, family, None))
  {
    var lines := PrintItem(x) + after;
    assert lines[1..] == x.prose + after;
    ProseIsIgnored(x.prose, after, family, None);
  }

  lemma AfterARule(items: seq<Item>)
    requires Printable(items) && items != [] && items[0].Rule?
    ensures Print(items[1..]) == [] || EndsRule(Print(items[1..])[0])
  {
    if items[1..] != [] { assert items[1..][0] == items[1] && !items[1].Stray?; }
  }

  /** For every printable sequence of families, rules, chapters and stray headings: one record per rule, in order,
      with the family in force and each body unchanged up to empty lines around it, and the warnings due. */
  lemma {:induction false} ParseUndoesPrint(items: seq<Item>, family: Option<Family>)
    requires Printable(items)
    ensures ParseRest(Print(items), family, None) == Expected(items, family)
  {
    if items != [] {
      var later := Print(items[1..]);
      assert WellFormed(items[0]);
      ParseUndoesPrint(items[1..], if items[0].FamilyHeading? then Some(items[0].family) else family);
      match items[0]
      case FamilyHeading(f, prose) => HeadingIsParsed(f, prose, later, family);
      case Chapter(_, _, _, _) => ChapterIsParsed(items[0], later, family);
      case Stray(_, _, _) => StrayIsParsed(items[0], later, family);
      case Rule(e) =>
        AfterARule(items);
        RuleIsParsed(e, later, family);
    }
  }

  ghost predicate AllEmpty(lines: seq<Line>) { forall l | l in lines :: l == TextLine("") }

  /** What a record's section keeps of a body: everything but the empty lines around it. */
  lemma {:induction false} TrimDropsOnlyEmptyLines(body: seq<Line>) returns (front: seq<Line>, back: seq<Line>)
    ensures body == front + Trim(body) + back && AllEmpty(front) && AllEmpty(back)
    ensures Trim(body) != [] ==> Trim(body)[0] != TextLine("") && Trim(body)[|Trim(body)| - 1] != TextLine("")
  {
    if body != [] && body[0] == TextLine("") {
      front, back := TrimDropsOnlyEmptyLines(body[1..]);
      front := [body[0]] + front;
    } else {
      front := [];
      back := TrimBackDropsOnlyEmptyLines(body);
    }
  }

  lemma {:induction false} TrimBackDropsOnlyEmptyLines(body: seq<Line>) returns (back: seq<Line>)
    ensures body == TrimBack(body) + back && AllEmpty(back)
    ensures TrimBack(body) != [] ==>
      TrimBack(body)[0] == body[0] && TrimBack(body)[|TrimBack(body)| - 1] != TextLine("")
  {
    if body != [] && body[|body| - 1] == TextLine("") {
      back := TrimBackDropsOnlyEmptyLines(body[..|body| - 1]);
      back := back + [body[|body| - 1]];
    } else {
      back := [];
    }
  }

  // ---- what a record says about its own sections ----

  /** Tactics, techniques and evidence are those its own sections show. */
  predicate MatchesItsSections(r: Record) {
    && |r.sections| == 5
    && r.tactics == LastTactics(r.sections[0]) && r.techniques == LastTechnique(r.sections[0])
    && r.evidence == EvidenceIn(r.sections[4])
  }

  predicate SameSeen(a: seq<Line>, b: seq<Line>) {
    LastTactics(a) == LastTactics(b) && LastTechnique(a) == LastTechnique(b) && EvidenceIn(a) == EvidenceIn(b)
  }

  lemma {:induction false} SeenDespiteBack(lines: seq<Line>, back: seq<Line>)
    requires AllEmpty(back)
    ensures SameSeen(lines + back, lines)
  {
    if back == [] {
      assert lines + back == lines;
    } else {
      var n := |back| - 1;
      assert back[n] in back && forall l | l in back[..n] :: l in back;
      assert (lines + back)[..|lines + back| - 1] == lines + back[..n];
      SeenDespiteBack(lines, back[..n]);
    }
  }

  lemma {:induction false} SeenDespiteFront(front: seq<Line>, lines: seq<Line>)
    requires AllEmpty(front)
    ensures SameSeen(front + lines, lines)
  {
    if lines == [] {
      SeenDespiteBack([], front);
      assert front + lines == [] + front;
    } else {
      var n := |lines| - 1;
      assert (front + lines)[..|front + lines| - 1] == front + lines[..n];
      SeenDespiteFront(front, lines[..n]);
    }
  }

  lemma TrimKeepsWhatIsSeen(body: seq<Line>)
    ensures SameSeen(Trim(body), body)
  {
    var front, back := TrimDropsOnlyEmptyLines(body);
    SeenDespiteFront(front, Trim(body));
    SeenDespiteBack(front + Trim(body), back);
  }

  lemma RecordMatchesItsSections(id: string, title: string, meta: Metadata, family: Option<Family>,
                                 bodies: seq<seq<Line>>)
    requires |bodies| == 5
    ensures MatchesItsSections(RecordOf(id, title, meta, family, bodies))
  {
    TrimKeepsWhatIsSeen(bodies[0]);
    TrimKeepsWhatIsSeen(bodies[4]);
  }

  ghost predicate AllMatch(o: Outcome) { o.Parsed? ==> forall r | r in o.records :: MatchesItsSections(r) }

  /** Of every input, every record that is parsed matches its own sections. */
  lemma {:induction false} ParsedRecordsMatch(rest: seq<Line>, family: Option<Family>, anchor: Option<string>)
    ensures AllMatch(ParseRest(rest, family, anchor))
    decreases |rest|, 0
  {
    if rest != [] {
      match rest[0]
      case FamilyLine(f) => ParsedRecordsMatch(rest[1..], Some(f), anchor);
      case AnchorLine(id) => ParsedRecordsMatch(rest[1..], family, Some(id));
      case TitleLine(title, _) =>
        ParsedRecordsMatch(rest[1..], family, None);
        if anchor.Some? && anchor.value !in NON_RULE_ANCHORS {
          var afterGap := SkipBlank(rest[1..]);
          if afterGap != [] && afterGap[0].MetaLine? {
            ParsedRuleMatches(afterGap[1..], family, anchor.value, title, afterGap[0].meta, []);
          } else {
            ParsedRuleMatches(afterGap, family, anchor.value, title, DEFAULT_METADATA, [NoMetadata(anchor.value)]);
          }
        }
      case _ => ParsedRecordsMatch(rest[1..], family, anchor);
    }
  }

  lemma {:induction false} ParsedRuleMatches(rest: seq<Line>, family: Option<Family>, id: string, title: string,
                                             meta: Metadata, warnings: seq<Warning>)
    ensures AllMatch(ParseBody(rest, family, id, title, meta, warnings))
    decreases |rest|, 1
  {
    var body := Body(rest);
    ParsedRecordsMatch(rest[|body|..], family, None);
    RecordMatchesItsSections(id, title, meta, family, Subsections(body));
  }

  // ---- the pieces by position ----

  /** No subsection heading stands among the lines from `from` up to j. */
  predicate NoHeading(body: seq<Line>, from: nat, j: nat)
    requires j <= |body|
  {
    forall h | from <= h < j :: !body[h].SubsectionLine?
  }

  /** The last subsection heading before line j is line h, with this number. */
  predicate LastHeading(body: seq<Line>, h: nat, j: nat, num: nat) {
    h < j <= |body| && body[h] == SubsectionLine(num) && NoHeading(body, h + 1, j)
  }

  /** Line j is a body line, and the last subsection heading before it, or else the one in force at the start,
      has this number. */
  predicate StandsUnder(body: seq<Line>, current: Option<nat>, j: nat, num: nat) {
    && j < |body| && !body[j].SubsectionLine?
    && ((current == Some(num) && NoHeading(body, 0, j)) || exists h: nat | h < j :: LastHeading(body, h, j, num))
  }

  lemma NoHeadingBehind(head: Line, rest: seq<Line>, from: nat, j: nat)
    requires j <= |rest|
    ensures NoHeading([head] + rest, from + 1, j + 1) <==> NoHeading(rest, from, j)
    ensures NoHeading([head] + rest, 0, j + 1) <==> !head.SubsectionLine? && NoHeading(rest, 0, j)
  {
    var body := [head] + rest;
    assert body[0] == head;
    forall h: nat | h < |rest| ensures body[h + 1] == rest[h] {}
    if NoHeading(body, from + 1, j + 1) {
      forall h | from <= h < j ensures !rest[h].SubsectionLine? { assert !body[h + 1].SubsectionLine?; }
    }
    if NoHeading(body, 0, j + 1) {
      forall h | 0 <= h < j ensures !rest[h].SubsectionLine? { assert !body[h + 1].SubsectionLine?; }
    }
  }

  lemma LastHeadingBehind(head: Line, rest: seq<Line>, h: nat, j: nat, num: nat)
    ensures LastHeading([head] + rest, h + 1, j + 1, num) <==> LastHeading(rest, h, j, num)
    ensures j <= |rest| ==>
      (LastHeading([head] + rest, 0, j + 1, num) <==> head == SubsectionLine(num) && NoHeading(rest, 0, j))
  {
    if j <= |rest| {
      NoHeadingBehind(head, rest, h + 1, j);
      NoHeadingBehind(head, rest, 0, j);
    }
  }

  lemma StandsUnderBehind(head: Line, rest: seq<Line>, current: Option<nat>, j: nat, num: nat)
    ensures StandsUnder([head] + rest, current, j + 1, num) <==>
      StandsUnder(rest, if head.SubsectionLine? then Some(head.num) else current, j, num)
  {
    if j < |rest| && !rest[j].SubsectionLine? {
      var body, next := [head] + rest, if head.SubsectionLine? then Some(head.num) else current;
      assert body[j + 1] == rest[j];
      NoHeadingBehind(head, rest, 0, j);
      forall h: nat ensures LastHeading(body, h + 1, j + 1, num) <==> LastHeading(rest, h, j, num) {
        LastHeadingBehind(head, rest, h, j, num);
      }
      LastHeadingBehind(head, rest, 0, j, num);
      var top := j + 1;
      if h: nat :| h < top && LastHeading(body, h, top, num) {
        assert h > 0 ==> LastHeading(rest, h - 1, j, num);
      }
      if h: nat :| h < j && LastHeading(rest, h, j, num) { assert LastHeading(body, h + 1, j + 1, num); }
      if next == Some(num) && NoHeading(rest, 0, j) && head.SubsectionLine? {
        assert LastHeading(body, 0, j + 1, num);
      }
    }
  }

  function LinesUnder(body: seq<Line>, current: Option<nat>, num: nat): set<nat> {
    set j: nat | j < |body| && StandsUnder(body, current, j, num)
  }

  lemma LinesUnderBehind(head: Line, rest: seq<Line>, current: Option<nat>, num: nat)
    ensures
      var later := Shifted(LinesUnder(rest, if head.SubsectionLine? then Some(head.num) else current, num));
      LinesUnder([head] + rest, current, num) ==
      if !head.SubsectionLine? && current == Some(num) then {0} + later else later
  {
    var body, next := [head] + rest, if head.SubsectionLine? then Some(head.num) else current;
    forall j: nat ensures j in LinesUnder(rest, next, num) <==> j + 1 in LinesUnder(body, current, num) {
      StandsUnderBehind(head, rest, current, j, num);
    }
    PositionsBehind(LinesUnder(body, current, num), LinesUnder(rest, next, num));
    assert 0 in LinesUnder(body, current, num) <==> !head.SubsectionLine? && current == Some(num);
  }

  lemma {:induction false} UnderByPosition(body: seq<Line>, current: Option<nat>, num: nat)
    ensures Selects(body, LinesUnder(body, current, num), Under(body, current, num))
  {
    if body == [] {
      SelectsNothing(body);
      assert LinesUnder(body, current, num) == {};
    } else {
      var head, rest := body[0], body[1..];
      var next := if head.SubsectionLine? then Some(head.num) else current;
      UnderByPosition(rest, next, num);
      SelectsBehind(head, rest, LinesUnder(rest, next, num), Under(rest, next, num));
      LinesUnderBehind(head, rest, current, num);
      assert [head] + rest == body;
    }
  }

  /** A rule is a KeyError exactly when some body line stands under a number outside 1 to 5. */
  lemma {:induction false} OverflowsByPosition(body: seq<Line>, current: Option<nat>)
    ensures Overflows(body, current) <==>
      exists j: nat, num: nat :: StandsUnder(body, current, j, num) && !(1 <= num <= 5)
  {
    if body != [] {
      var head, rest := body[0], body[1..];
      var next := if head.SubsectionLine? then Some(head.num) else current;
      OverflowsByPosition(rest, next);
      assert [head] + rest == body;
      forall j: nat, num: nat ensures StandsUnder(body, current, j + 1, num) <==> StandsUnder(rest, next, j, num) {
        StandsUnderBehind(head, rest, current, j, num);
      }
      if j: nat, num: nat :| StandsUnder(body, current, j, num) && !(1 <= num <= 5) {
        if j > 0 { assert StandsUnder(rest, next, j - 1, num); }
      }
      if j: nat, num: nat :| StandsUnder(rest, next, j, num) && !(1 <= num <= 5) {
        assert StandsUnder(body, current, j + 1, num);
      }
      if OffTheChart(current) && !head.SubsectionLine? { assert StandsUnder(body, current, 0, current.value); }
    }
  }

  /** The tactics are those of the last tactics row, if there is one. */
  lemma {:induction false} TacticsByPosition(lines: seq<Line>, j: nat)
    ensures (forall k | 0 <= k < |lines| :: !lines[k].TacticsLine?) ==> LastTactics(lines) == []
    ensures j < |lines| && lines[j].TacticsLine? && (forall k | j < k < |lines| :: !lines[k].TacticsLine?) ==>
      LastTactics(lines) == lines[j].tactics
  {
    if lines != [] && !lines[|lines| - 1].TacticsLine? { TacticsByPosition(lines[..|lines| - 1], j); }
  }

  /** The technique is that of the last technique row, if there is one. */
  lemma {:induction false} TechniqueByPosition(lines: seq<Line>, j: nat)
    ensures (forall k | 0 <= k < |lines| :: !lines[k].TechniqueLine?) ==> LastTechnique(lines) == []
    ensures j < |lines| && lines[j].TechniqueLine? && (forall k | j < k < |lines| :: !lines[k].TechniqueLine?) ==>
      LastTechnique(lines) == [lines[j].technique]
  {
    if lines != [] && !lines[|lines| - 1].TechniqueLine? { TechniqueByPosition(lines[..|lines| - 1], j); }
  }

  function EvidenceAt(lines: seq<Line>): set<nat> { set i: nat | i < |lines| && lines[i].EvidenceLine? }

  predicate TextsOf(texts: seq<string>, lines: seq<Line>) {
    |texts| == |lines| && forall i | 0 <= i < |lines| :: lines[i].EvidenceLine? && texts[i] == lines[i].text
  }

  /** The evidence is the texts of all evidence lines, in order. */
  lemma {:induction false} EvidenceByPosition(lines: seq<Line>) returns (own: seq<Line>)
    ensures Selects(lines, EvidenceAt(lines), own) && TextsOf(EvidenceIn(lines), own)
  {
    if lines == [] {
      own := [];
      SelectsNothing(lines);
      assert EvidenceAt(lines) == {};
    } else {
      var n: nat := |lines| - 1;
      var before := EvidenceByPosition(lines[..n]);
      SelectsOneMore(lines[..n], EvidenceAt(lines[..n]), before, lines[n]);
      assert lines[..n] + [lines[n]] == lines;
      own := if lines[n].EvidenceLine? then before + [lines[n]] else before;
      assert EvidenceAt(lines) ==
             if lines[n].EvidenceLine? then EvidenceAt(lines[..n]) + {n} else EvidenceAt(lines[..n]);
    }
  }

  /** Exactly the empty sections are warned about. */
  lemma {:induction false} EmptySectionsByPosition(id: string, sections: seq<seq<Line>>, w: Warning)
    ensures w in EmptySections(id, sections) <==>
      w.EmptySubsection? && w.id == id && 1 <= w.num <= |sections| && sections[w.num - 1] == []
  {
    if sections != [] { EmptySectionsByPosition(id, sections[..|sections| - 1], w); }
  }

  // ---- what is read back, by position ----

  /** The family of the last heading before item i, or else the one in force at the start. */
  function FamilyBefore(items: seq<Item>, family: Option<Family>, i: nat): Option<Family>
    requires i <= |items|
  {
    if i == 0 then family
    else if items[i - 1].FamilyHeading? then Some(items[i - 1].family)
    else FamilyBefore(items, family, i - 1)
  }

  function NextFamily(item: Item, family: Option<Family>): Option<Family> {
    if item.FamilyHeading? then Some(item.family) else family
  }

  lemma {:induction false} FamilyBehind(head: Item, rest: seq<Item>, family: Option<Family>, i: nat)
    requires i <= |rest|
    ensures FamilyBefore([head] + rest, family, i + 1) == FamilyBefore(rest, NextFamily(head, family), i)
  {
    if i > 0 { FamilyBehind(head, rest, family, i - 1); }
  }

  /** The text is the body without the empty lines around it. */
  ghost predicate IsTextOf(text: seq<Line>, body: seq<Line>) {
    && (exists front, back :: body == front + text + back && AllEmpty(front) && AllEmpty(back))
    && (text != [] ==> text[0] != TextLine("") && text[|text| - 1] != TextLine(""))
  }

  ghost predicate IsRecordOf(r: Record, e: Entry, family: Option<Family>) {
    && r.id == e.id && r.title == e.title && r.family == family
    && r.meta == (if e.meta.Some? then e.meta.value else Metadata("", "experimental", "medium"))
    && |r.sections| == |e.bodies| && (forall k | 0 <= k < |e.bodies| :: IsTextOf(r.sections[k], e.bodies[k]))
    && MatchesItsSections(r)
  }

  ghost predicate RecordAt(r: Record, i: nat, items: seq<Item>, family: Option<Family>) {
    i < |items| && items[i].Rule? && IsRecordOf(r, items[i].entry, FamilyBefore(items, family, i))
  }

  function RecordRead(e: Entry, family: Option<Family>): Record
    requires |e.bodies| == 5
  {
    RecordOf(e.id, e.title, MetaOf(e), family, e.bodies)
  }

  lemma RecordIsRead(e: Entry, family: Option<Family>)
    requires |e.bodies| == 5
    ensures IsRecordOf(RecordRead(e, family), e, family)
  {
    forall k | 0 <= k < 5 ensures IsTextOf(Trim(e.bodies[k]), e.bodies[k]) {
      var front, back := TrimDropsOnlyEmptyLines(e.bodies[k]);
    }
    RecordMatchesItsSections(e.id, e.title, MetaOf(e), family, e.bodies);
  }

  lemma RecordBehind(items: seq<Item>, family: Option<Family>, r: Record, i: nat)
    requires items != [] && RecordAt(r, i, items[1..], NextFamily(items[0], family))
    ensures RecordAt(r, i + 1, items, family)
  {
    assert items == [items[0]] + items[1..];
    FamilyBehind(items[0], items[1..], family, i);
  }

  /** The positions of the rules. */
  function RulesIn(items: seq<Item>): seq<nat> {
    if items == [] then []
    else (if items[0].Rule? then [0] else []) + Later(RulesIn(items[1..]))
  }

  lemma {:induction false} RulesInOrder(items: seq<Item>)
    ensures forall m, n | 0 <= m < n < |RulesIn(items)| :: RulesIn(items)[m] < RulesIn(items)[n]
    ensures forall i :: i in RulesIn(items) <==> 0 <= i < |items| && items[i].Rule?
  {
    if items != [] {
      RulesInOrder(items[1..]);
      forall i ensures i in RulesIn(items) <==> 0 <= i < |items| && items[i].Rule? {
        LaterIff(RulesIn(items[1..]), i);
      }
    }
  }

  lemma LaterIff(at: seq<nat>, i: int)
    ensures i in Later(at) <==> i - 1 in at
  {
    if i - 1 in at {
      var n :| 0 <= n < |at| && at[n] == i - 1;
      assert Later(at)[n] == i;
    }
    if i in Later(at) {
      var n :| 0 <= n < |at| && Later(at)[n] == i;
      assert at[n] == i - 1;
    }
  }

  lemma FirstRecords(items: seq<Item>, family: Option<Family>)
    requires items != [] && forall i | 0 <= i < |items| :: WellFormed(items[i])
    ensures Expected(items, family).Parsed? <==> Expected(items[1..], NextFamily(items[0], family)).Parsed?
    ensures Expected(items, family).Parsed? ==>
      Expected(items, family).records ==
      (if items[0].Rule? then [RecordRead(items[0].entry, family)] else [])
      + Expected(items[1..], NextFamily(items[0], family)).records
  {}

  /** A printed document is read back with one record per rule. */
  lemma {:induction false} OneRecordPerRule(items: seq<Item>, family: Option<Family>)
    requires forall i | 0 <= i < |items| :: WellFormed(items[i])
    ensures Expected(items, family).Parsed? && |Expected(items, family).records| == |RulesIn(items)|
  {
    if items != [] {
      OneRecordPerRule(items[1..], NextFamily(items[0], family));
      FirstRecords(items, family);
    }
  }

  predicate Reads(items: seq<Item>, family: Option<Family>, n: nat) {
    && (forall i | 0 <= i < |items| :: WellFormed(items[i]))
    && Expected(items, family).Parsed? && n < |Expected(items, family).records| == |RulesIn(items)|
  }

  /** They come in order, each with the family in force where its rule stands. */
  lemma {:induction false} RecordsByPosition(items: seq<Item>, family: Option<Family>, n: nat)
    requires Reads(items, family, n)
    ensures RecordAt(Expected(items, family).records[n], RulesIn(items)[n], items, family)
  {
    var next := NextFamily(items[0], family);
    OneRecordPerRule(items[1..], next);
    FirstRecords(items, family);
    if items[0].Rule? && n == 0 {
      RecordIsRead(items[0].entry, family);
    } else {
      var m := if items[0].Rule? then n - 1 else n;
      RecordsByPosition(items[1..], next, m);
      RecordMoves(items, family, n, m);
      RecordBehind(items, family, Expected(items, family).records[n], RulesIn(items[1..])[m]);
    }
  }

  lemma RecordMoves(items: seq<Item>, family: Option<Family>, n: nat, m: nat)
    requires items != [] && Reads(items, family, n) && Reads(items[1..], NextFamily(items[0], family), m)
    requires n == if items[0].Rule? then m + 1 else m
    ensures Expected(items, family).records[n] == Expected(items[1..], NextFamily(items[0], family)).records[m]
    ensures RulesIn(items)[n] == RulesIn(items[1..])[m] + 1
  {
    FirstRecords(items, family);
  }

  /** What is warned about in an item. */
  ghost predicate Deserves(w: Warning, item: Item) {
    match w
    case UnmappedFamily(title) => item.FamilyHeading? && item.family == Family(title, None)
    case NoAnchor(title) => item.Stray? && item.title == title
    case NoMetadata(id) => item.Rule? && item.entry.id == id && item.entry.meta.None?
    case EmptySubsection(id, num) =>
      && item.Rule? && item.entry.id == id && 1 <= num <= |item.entry.bodies|
      && AllEmpty(item.entry.bodies[num - 1])
  }

  ghost predicate AnyDeserves(w: Warning, items: seq<Item>) {
    exists i | 0 <= i < |items| :: Deserves(w, items[i])
  }

  lemma OwnWarnings(e: Entry, w: Warning)
    requires |e.bodies| == 5
    ensures w in MetaWarnings(e) + EmptySections(e.id, Trimmed(e.bodies)) <==> Deserves(w, Rule(e))
  {
    EmptySectionsByPosition(e.id, Trimmed(e.bodies), w);
    if w.EmptySubsection? && 1 <= w.num <= 5 { TrimIsEmptyIff(e.bodies[w.num - 1]); }
  }

  lemma AnyDeservesBehind(w: Warning, head: Item, rest: seq<Item>)
    ensures AnyDeserves(w, [head] + rest) <==> Deserves(w, head) || AnyDeserves(w, rest)
  {
    var items := [head] + rest;
    if AnyDeserves(w, items) {
      var i :| 0 <= i < |items| && Deserves(w, items[i]);
      assert i > 0 ==> Deserves(w, rest[i - 1]);
    }
    if AnyDeserves(w, rest) {
      var i :| 0 <= i < |rest| && Deserves(w, rest[i]);
      assert Deserves(w, items[i + 1]);
    }
    assert items[0] == head;
  }

  lemma TrimIsEmptyIff(body: seq<Line>)
    ensures Trim(body) == [] <==> AllEmpty(body)
  {
    var front, back := TrimDropsOnlyEmptyLines(body);
    if Trim(body) == [] {
      forall l | l in body ensures l == TextLine("") { assert l in front || l in back; }
    } else {
      assert Trim(body)[0] in body;
    }
  }

  /** Exactly what deserves a warning is warned about. */
  lemma {:induction false} WarningsByPosition(items: seq<Item>, family: Option<Family>, w: Warning)
    requires forall i | 0 <= i < |items| :: WellFormed(items[i])
    ensures Expected(items, family).Parsed?
    ensures w in Expected(items, family).warnings <==> AnyDeserves(w, items)
  {
    if items != [] {
      var head, rest := items[0], items[1..];
      WarningsByPosition(rest, NextFamily(head, family), w);
      if head.Rule? { OwnWarnings(head.entry, w); }
      var later := Expected(rest, NextFamily(head, family)).warnings;
      assert w in Expected(items, family).warnings <==> Deserves(w, head) || w in later;
      assert items == [head] + rest;
      AnyDeservesBehind(w, head, rest);
    }
  }
}
