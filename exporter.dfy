/** The exporter's text transforms: the spreadsheet rows, the latin-1
    sanitiser, the plain-text memo and the text that the PDF memo is given.
    The workbook bytes and the PDF layout are produced by libraries and are
    not part of this module. */
module Exporter {
  import opened Wrappers
  import opened Builtins
  import opened Models

  // ---------------------------------------------------------------------------
  // Spreadsheet rows (to_excel)
  // ---------------------------------------------------------------------------

  const CoreFieldNames: seq<string> := [
    "Startup Name", "Problem", "Solution", "Product", "Market / TAM",
    "Business Model", "Traction", "Team", "Competition", "Funding Ask/Stage"]

  const ListFieldNames: seq<string> := ["Missing Sections", "Weak Signals", "Red Flags"]

  /** The ten text fields, labelled, in the order the sheet lists them. */
  function CoreFields(d: PitchDeckData): seq<(string, string)>
  {
    [("Startup Name", d.startupName), ("Problem", d.problem), ("Solution", d.solution),
     ("Product", d.product), ("Market / TAM", d.marketTam), ("Business Model", d.businessModel),
     ("Traction", d.tractionMetrics), ("Team", d.team), ("Competition", d.competitiveLandscape),
     ("Funding Ask/Stage", d.fundingAskStage)]
  }

  /** The three analysis lists, labelled. */
  function ListFields(d: PitchDeckData): seq<(string, seq<string>)>
  {
    [("Missing Sections", d.missingSections), ("Weak Signals", d.weakSignals), ("Red Flags", d.redFlags)]
  }

  /** A list flattened into one cell: its items joined by ", ", or "None" when empty. */
  function ListCell(items: seq<string>): (cell: string)
    ensures items == [] ==> cell == "None"
    ensures |items| == 1 ==> cell == items[0]
    ensures |items| > 1 ==> cell == items[0] + ", " + Join(items[1..], ", ")
  {
    if items != [] then Join(items, ", ") else "None"
  }

  /** The Field and Value columns of the sheet, built by appending row by row. */
  method ExcelColumns(d: PitchDeckData) returns (fields: seq<string>, values: seq<string>)
    ensures |fields| == 13 && |values| == 13
    ensures fields == CoreFieldNames + ListFieldNames
    ensures values == [d.startupName, d.problem, d.solution, d.product, d.marketTam,
                       d.businessModel, d.tractionMetrics, d.team, d.competitiveLandscape,
                       d.fundingAskStage, ListCell(d.missingSections), ListCell(d.weakSignals),
                       ListCell(d.redFlags)]
  {
    fields, values := [], [];
    var core := CoreFields(d);
    var i := 0;
    while i < |core|
      invariant 0 <= i <= |core|
      invariant |fields| == i && |values| == i
      invariant forall k :: 0 <= k < i ==> fields[k] == core[k].0 && values[k] == core[k].1
    {
      var (name, value) := core[i];
      fields := fields + [name];
      values := values + [value];
      i := i + 1;
    }
    var lists := ListFields(d);
    var j := 0;
    while j < |lists|
      invariant 0 <= j <= |lists|
      invariant |fields| == 10 + j && |values| == 10 + j
      invariant forall k :: 0 <= k < 10 ==> fields[k] == core[k].0 && values[k] == core[k].1
      invariant forall k :: 0 <= k < j ==> fields[10 + k] == lists[k].0 && values[10 + k] == ListCell(lists[k].1)
    {
      var (name, items) := lists[j];
      fields := fields + [name];
      values := values + [ListCell(items)];
      j := j + 1;
    }
    assert fields == CoreFieldNames + ListFieldNames by {
      forall k | 0 <= k < 13 ensures fields[k] == (CoreFieldNames + ListFieldNames)[k] {
        if k >= 10 { assert fields[10 + (k - 10)] == lists[k - 10].0; }
      }
    }
    assert values[10] == ListCell(lists[0].1);
    assert values[11] == ListCell(lists[1].1);
    assert values[12] == ListCell(lists[2].1);
  }

  // ---------------------------------------------------------------------------
  // The latin-1 sanitiser (_sanitize_text)
  // ---------------------------------------------------------------------------

  /** The replacement table, in the order its entries are applied. */
  const Replacements: seq<(char, string)> := [
    ('\U{2018}', "'"), ('\U{2019}', "'"),
    ('\U{201C}', "\""), ('\U{201D}', "\""),
    ('\U{2013}', "-"), ('\U{2014}', "-"),
    ('\U{2026}', "..."),
    ('\U{2022}', "*"),
    ('\U{2011}', "-")]

  /** The value of the first entry of `table` whose key is `c`. */
  function Lookup(c: char, table: seq<(char, string)>): (r: Option<string>)
    ensures r.Some? ==> (c, r.value) in table
    ensures r.None? <==> forall i :: 0 <= i < |table| ==> table[i].0 != c
  {
    if table == [] then None
    else if table[0].0 == c then Some(table[0].1)
    else Lookup(c, table[1..])
  }

  lemma {:induction false} LookupAppend(c: char, table: seq<(char, string)>, e: (char, string))
    ensures Lookup(c, table + [e]) ==
            if Lookup(c, table).Some? then Lookup(c, table)
            else if e.0 == c then Some(e.1) else None
  {
    if table != [] {
      assert (table + [e])[1..] == table[1..] + [e];
      LookupAppend(c, table[1..], e);
    }
  }

  /** Every key lies above 255 and every stand-in is plain ASCII. */
  lemma ReplacementTableShape()
    ensures forall i :: 0 <= i < |Replacements| ==> Replacements[i].0 as int > 255
    ensures forall i, j :: 0 <= i < |Replacements| && 0 <= j < |Replacements[i].1| ==>
              Replacements[i].1[j] as int < 128
  {
  }

  /** What `c` has become once the first `k` entries of the table have been applied. */
  function StandIn(c: char, k: nat): string
    requires k <= |Replacements|
  {
    match Lookup(c, Replacements[..k])
    case Some(v) => v
    case None => [c]
  }

  /** The text after the first `k` replacements of the loop. */
  function ReplacedUpTo(s: string, k: nat): string
    requires k <= |Replacements|
  {
    if s == [] then [] else StandIn(s[0], k) + ReplacedUpTo(s[1..], k)
  }

  lemma {:induction false} ReplacedNone(s: string)
    ensures ReplacedUpTo(s, 0) == s
  {
    if s != [] {
      ReplacedNone(s[1..]);
      assert [s[0]] + s[1..] == s;
    }
  }

  lemma StandInStep(c: char, k: nat)
    requires k < |Replacements|
    ensures ReplaceChar(StandIn(c, k), Replacements[k].0, Replacements[k].1) == StandIn(c, k + 1)
  {
    ReplacementTableShape();
    assert Replacements[..k + 1] == Replacements[..k] + [Replacements[k]];
    LookupAppend(c, Replacements[..k], Replacements[k]);
    match Lookup(c, Replacements[..k])
    case Some(v) =>
      assert (c, v) in Replacements;
      assert Replacements[k].0 !in v;
    case None =>
  }

  /** One pass of the replacement loop moves from `k` to `k + 1` replacements. */
  lemma {:induction false} ReplacedStep(s: string, k: nat)
    requires k < |Replacements|
    ensures ReplaceChar(ReplacedUpTo(s, k), Replacements[k].0, Replacements[k].1) == ReplacedUpTo(s, k + 1)
  {
    if s != [] {
      ReplaceCharConcat(StandIn(s[0], k), ReplacedUpTo(s[1..], k), Replacements[k].0, Replacements[k].1);
      StandInStep(s[0], k);
      ReplacedStep(s[1..], k);
    }
  }

  /** `s.encode('latin-1', 'replace').decode('latin-1')`. */
  function Latin1(s: string): (r: string)
    ensures |r| == |s|
  {
    seq(|s|, i requires 0 <= i < |s| => if s[i] as int <= 255 then s[i] else '?')
  }

  lemma Latin1Concat(a: string, b: string)
    ensures Latin1(a + b) == Latin1(a) + Latin1(b)
  {
  }

  /** The specification of the sanitiser, one character at a time. */
  function SanitizeChar(c: char): string
  {
    match Lookup(c, Replacements)
    case Some(v) => v
    case None => if c as int <= 255 then [c] else "?"
  }

  function Sanitized(s: string): string
  {
    if s == [] then [] else SanitizeChar(s[0]) + Sanitized(s[1..])
  }

  lemma {:induction false} Latin1OfReplaced(s: string)
    ensures Latin1(ReplacedUpTo(s, |Replacements|)) == Sanitized(s)
  {
    if s != [] {
      Latin1Concat(StandIn(s[0], |Replacements|), ReplacedUpTo(s[1..], |Replacements|));
      Latin1OfReplaced(s[1..]);
      Latin1OfStandIn(s[0]);
    }
  }

  /** Once the whole table is applied, the latin-1 round trip leaves one character's stand-in as the sanitiser's. */
  lemma Latin1OfStandIn(c: char)
    ensures Latin1(StandIn(c, |Replacements|)) == SanitizeChar(c)
  {
    ReplacementTableShape();
    assert Replacements[..|Replacements|] == Replacements;
    match Lookup(c, Replacements)
    case Some(v) =>
      assert (c, v) in Replacements;
      assert Latin1(v) == v;
    case None =>
  }

  /** `Exporter._sanitize_text`: the table applied entry by entry, then the latin-1 round trip. */
  method SanitizeText(text: string) returns (r: string)
    ensures r == Sanitized(text)
  {
    var t := text;
    ReplacedNone(text);
    var k := 0;
    while k < |Replacements|
      invariant 0 <= k <= |Replacements|
      invariant t == ReplacedUpTo(text, k)
    {
      var (key, value) := Replacements[k];
      ReplacedStep(text, k);
      t := ReplaceChar(t, key, value);
      k := k + 1;
    }
    Latin1OfReplaced(text);
    r := Latin1(t);
  }

  lemma {:induction false} SanitizedConcat(a: string, b: string)
    ensures Sanitized(a + b) == Sanitized(a) + Sanitized(b)
  {
    if a == [] {
      assert a + b == b;
    } else {
      assert (a + b)[0] == a[0];
      assert (a + b)[1..] == a[1..] + b;
      SanitizedConcat(a[1..], b);
    }
  }

  /** Every character of the output is a latin-1 code point. */
  lemma {:induction false} SanitizedIsLatin1(s: string)
    ensures forall i :: 0 <= i < |Sanitized(s)| ==> Sanitized(s)[i] as int <= 255
  {
    if s != [] {
      SanitizedIsLatin1(s[1..]);
      ReplacementTableShape();
      match Lookup(s[0], Replacements)
      case Some(v) => assert (s[0], v) in Replacements;
      case None =>
    }
  }

  /** Characters up to 255 pass through: a latin-1 text is left as it is. */
  lemma {:induction false} SanitizedKeepsLatin1(s: string)
    requires forall i :: 0 <= i < |s| ==> s[i] as int <= 255
    ensures Sanitized(s) == s
  {
    if s != [] {
      ReplacementTableShape();
      assert Lookup(s[0], Replacements).None?;
      SanitizedKeepsLatin1(s[1..]);
      assert [s[0]] + s[1..] == s;
    }
  }

  /** Sanitising twice is sanitising once. */
  lemma SanitizeIdempotent(s: string)
    ensures Sanitized(Sanitized(s)) == Sanitized(s)
  {
    SanitizedIsLatin1(s);
    SanitizedKeepsLatin1(Sanitized(s));
  }

  /** The output is longer than the input by two characters per ellipsis. */
  lemma {:induction false} SanitizedLength(s: string)
    ensures |Sanitized(s)| == |s| + 2 * Count(s, '\U{2026}')
  {
    if s != [] {
      SanitizeCharLength(s[0]);
      SanitizedLength(s[1..]);
    }
  }

  /** Only the ellipsis stands in for more than one character. */
  lemma SanitizeCharLength(c: char)
    ensures |SanitizeChar(c)| == if c == '\U{2026}' then 3 else 1
  {
    LookupLength(c, Replacements);
  }

  lemma {:induction false} LookupLength(c: char, table: seq<(char, string)>)
    requires forall i :: 0 <= i < |table| ==> |table[i].1| == (if table[i].0 == '\U{2026}' then 3 else 1)
    ensures Lookup(c, table).Some? ==> |Lookup(c, table).value| == if c == '\U{2026}' then 3 else 1
  {
    if table != [] && table[0].0 != c {
      LookupLength(c, table[1..]);
    }
  }

  /** The stand-in of each character: the table's value for a mapped character,
      the character itself up to 255, and one `?` for any other character. */
  lemma SanitizeCharCases(c: char)
    ensures c == '\U{2018}' || c == '\U{2019}' ==> SanitizeChar(c) == "'"
    ensures c == '\U{201C}' || c == '\U{201D}' ==> SanitizeChar(c) == "\""
    ensures c == '\U{2013}' || c == '\U{2014}' || c == '\U{2011}' ==> SanitizeChar(c) == "-"
    ensures c == '\U{2026}' ==> SanitizeChar(c) == "..."
    ensures c == '\U{2022}' ==> SanitizeChar(c) == "*"
    ensures c as int <= 255 ==> SanitizeChar(c) == [c]
    ensures c as int > 255 && Lookup(c, Replacements).None? ==> SanitizeChar(c) == "?"
  {
    SanitizeMapped(c);
    SanitizeUnmapped(c);
  }

  lemma SanitizeMapped(c: char)
    ensures c == '\U{2018}' || c == '\U{2019}' ==> SanitizeChar(c) == "'"
    ensures c == '\U{201C}' || c == '\U{201D}' ==> SanitizeChar(c) == "\""
    ensures c == '\U{2013}' || c == '\U{2014}' || c == '\U{2011}' ==> SanitizeChar(c) == "-"
    ensures c == '\U{2026}' ==> SanitizeChar(c) == "..."
    ensures c == '\U{2022}' ==> SanitizeChar(c) == "*"
  {
  }

  lemma SanitizeUnmapped(c: char)
    ensures c as int <= 255 ==> SanitizeChar(c) == [c]
    ensures c as int > 255 && Lookup(c, Replacements).None? ==> SanitizeChar(c) == "?"
  {
    ReplacementTableShape();
  }


  // ---------------------------------------------------------------------------
  // The memo sections, shared by the text and the PDF memo
  // ---------------------------------------------------------------------------

  /** A section's content: a text, a list of items, or null. */
  datatype Content = Text(text: string) | Items(items: seq<string>) | Absent

  const SectionTitles: seq<string> := [
    "Company Overview", "Problem & Solution Clarity", "Market Opportunity",
    "Product Differentiation", "Traction & Metrics", "Team Assessment",
    "Risks & Concerns", "Open Questions", "Neutral Assessment"]

  function OptionalText(o: Option<string>): Content
  {
    match o
    case Some(s) => Text(s)
    case None => Absent
  }

  /** The nine memo sections, titled in their fixed order. */
  function MemoSections(m: InvestmentMemo): (r: seq<(string, Content)>)
    ensures |r| == |SectionTitles|
    ensures forall i :: 0 <= i < |r| ==> r[i].0 == SectionTitles[i]
  {
    [("Company Overview", Text(m.companyOverview)),
     ("Problem & Solution Clarity", Text(m.problemSolutionClarity)),
     ("Market Opportunity", Text(m.marketOpportunity)),
     ("Product Differentiation", Text(m.productDifferentiation)),
     ("Traction & Metrics", Text(m.tractionMetricsAnalysis)),
     ("Team Assessment", Text(m.teamAssessment)),
     ("Risks & Concerns", Items(m.risksConcerns)),
     ("Open Questions", Items(m.openQuestions)),
     ("Neutral Assessment", OptionalText(m.neutralAssessment))]
  }

  // ---------------------------------------------------------------------------
  // The plain-text memo (to_text_memo)
  // ---------------------------------------------------------------------------

  function BulletLines(items: seq<string>): (lines: seq<string>)
    ensures |lines| == |items|
    ensures forall i :: 0 <= i < |items| ==> lines[i] == "- " + items[i]
  {
    seq(|items|, i requires 0 <= i < |items| => "- " + items[i])
  }

  /** The lines a section's content gives: one per item, the text, or an empty line for null. */
  function ContentLines(c: Content): seq<string>
  {
    match c
    case Text(s) => [s]
    case Items(items) => BulletLines(items)
    case Absent => [""]
  }

  function SectionBlock(title: string, c: Content): seq<string>
  {
    ["## " + title] + ContentLines(c) + [""]
  }

  /** The blocks of `sections`, one after another. */
  function Blocks(sections: seq<(string, Content)>): seq<string>
  {
    if sections == [] then []
    else SectionBlock(sections[0].0, sections[0].1) + Blocks(sections[1..])
  }

  function MemoHeader(name: string): seq<string>
  {
    ["Investment Memo: " + name, Repeat('=', 40), ""]
  }

  /** The specification of the text memo as its list of lines. */
  function MemoLines(m: InvestmentMemo, name: string): seq<string>
  {
    MemoHeader(name) + Blocks(MemoSections(m))
  }

  /** The lines one section appends: its header, its content lines, an empty line. */
  method AppendSection(lines: seq<string>, title: string, content: Content) returns (out: seq<string>)
    ensures out == lines + SectionBlock(title, content)
  {
    out := lines + ["## " + title];
    match content {
      case Items(items) =>
        var j := 0;
        while j < |items|
          invariant 0 <= j <= |items|
          invariant out == lines + ["## " + title] + BulletLines(items[..j])
        {
          assert BulletLines(items[..j + 1]) == BulletLines(items[..j]) + ["- " + items[j]];
          out := out + ["- " + items[j]];
          j := j + 1;
        }
        assert items[..j] == items;
      case Text(s) =>
        out := out + [s];
      case Absent =>
        out := out + [""];
    }
    out := out + [""];
  }

  /** The loop over the sections: each one appends its block. */
  method AppendSections(lines: seq<string>, sections: seq<(string, Content)>) returns (out: seq<string>)
    ensures out == lines + Blocks(sections)
  {
    out := lines;
    var i := 0;
    while i < |sections|
      invariant 0 <= i <= |sections|
      invariant out == lines + Blocks(sections[..i])
    {
      BlocksSnoc(sections, i);
      ConcatAssoc(lines, Blocks(sections[..i]), SectionBlock(sections[i].0, sections[i].1));
      out := AppendSection(out, sections[i].0, sections[i].1);
      i := i + 1;
    }
    assert sections[..i] == sections;
  }

  lemma ConcatAssoc(a: seq<string>, b: seq<string>, c: seq<string>)
    ensures (a + b) + c == a + (b + c)
  {
  }

  /** `Exporter.to_text_memo`: the lines appended one by one, then joined by newlines. */
  method ToTextMemo(m: InvestmentMemo, name: string) returns (text: string)
    ensures text == Join(MemoLines(m, name), "\n")
  {
    var lines := ["Investment Memo: " + name, Repeat('=', 40), ""];
    lines := AppendSections(lines, MemoSections(m));
    text := Join(lines, "\n");
  }

  lemma {:induction false} BlocksConcat(a: seq<(string, Content)>, b: seq<(string, Content)>)
    ensures Blocks(a + b) == Blocks(a) + Blocks(b)
  {
    if a == [] {
      assert a + b == b;
    } else {
      assert (a + b)[0] == a[0];
      assert (a + b)[1..] == a[1..] + b;
      BlocksConcat(a[1..], b);
    }
  }

  lemma BlocksSingle(s: (string, Content))
    ensures Blocks([s]) == SectionBlock(s.0, s.1)
  {
    assert [s][1..] == [];
  }

  lemma BlocksSnoc(sections: seq<(string, Content)>, i: nat)
    requires i < |sections|
    ensures Blocks(sections[..i + 1]) == Blocks(sections[..i]) + SectionBlock(sections[i].0, sections[i].1)
  {
    assert sections[..i + 1] == sections[..i] + [sections[i]];
    BlocksConcat(sections[..i], [sections[i]]);
    BlocksSingle(sections[i]);
  }

  /** The `k`-th section's block follows the blocks of the sections before it. */
  lemma MemoSectionOrder(m: InvestmentMemo, name: string, k: nat)
    requires k < |SectionTitles|
    ensures MemoLines(m, name) ==
            MemoHeader(name) + Blocks(MemoSections(m)[..k])
            + (["## " + SectionTitles[k]] + ContentLines(MemoSections(m)[k].1) + [""])
            + Blocks(MemoSections(m)[k + 1..])
  {
    var s := MemoSections(m);
    assert s == (s[..k] + [s[k]]) + s[k + 1..];
    BlocksConcat(s[..k] + [s[k]], s[k + 1..]);
    BlocksConcat(s[..k], [s[k]]);
    BlocksSingle(s[k]);
  }

  function ContentLineCount(sections: seq<(string, Content)>): nat
  {
    if sections == [] then 0
    else 2 + |ContentLines(sections[0].1)| + ContentLineCount(sections[1..])
  }

  /** Each section adds its header line, its content lines and one empty line. */
  lemma {:induction false} BlocksLength(sections: seq<(string, Content)>)
    ensures |Blocks(sections)| == ContentLineCount(sections)
  {
    if sections != [] {
      BlocksLength(sections[1..]);
    }
  }

  /** The memo opens with its title line, a rule of 40 `=` and an empty line. */
  lemma TextMemoStart(m: InvestmentMemo, name: string)
    ensures |MemoLines(m, name)| == 3 + ContentLineCount(MemoSections(m))
    ensures MemoLines(m, name)[..3] == ["Investment Memo: " + name, Repeat('=', 40), ""]
    ensures var rest := Join(Blocks(MemoSections(m)), "\n");
            Join(MemoLines(m, name), "\n") == "Investment Memo: " + name + "\n" + Repeat('=', 40) + "\n\n" + rest
  {
    var s := MemoSections(m);
    var title := "Investment Memo: " + name;
    var rule := Repeat('=', 40);
    BlocksLength(s);
    assert |Blocks(s)| > 0;
    JoinConcat(MemoHeader(name), Blocks(s), "\n");
    assert MemoHeader(name)[1..] == [rule, ""];
    assert [rule, ""][1..] == [""];
    assert Join([rule, ""], "\n") == rule + "\n" + "";
    assert Join(MemoHeader(name), "\n") == title + "\n" + (rule + "\n" + "");
    assert title + "\n" + (rule + "\n" + "") + "\n" == title + "\n" + rule + "\n\n";
  }

  // ---------------------------------------------------------------------------
  // The PDF memo's text (to_pdf_memo)
  // ---------------------------------------------------------------------------

  /** A content rendered for one PDF cell: bullet lines joined by newlines,
      the text itself, or "" for null. */
  function FormatContent(c: Content): string
  {
    match c
    case Items(items) => Join(BulletLines(items), "\n")
    case Text(s) => s
    case Absent => ""
  }

  /** A PDF cell carries exactly the lines the text memo gives the same content. */
  lemma FormatContentIsJoinedLines(c: Content)
    ensures FormatContent(c) == Join(ContentLines(c), "\n")
  {
  }

  /** A list's cell splits back into its bullet lines when no item holds a newline. */
  lemma FormatContentLines(items: seq<string>)
    requires |items| > 0
    requires forall i :: 0 <= i < |items| ==> '\n' !in items[i]
    ensures Split(FormatContent(Items(items)), '\n') == BulletLines(items)
  {
    var lines := BulletLines(items);
    forall i | 0 <= i < |lines| ensures '\n' !in lines[i] {
      assert lines[i] == "- " + items[i];
    }
    SplitJoin(lines, '\n');
  }

  datatype PdfSection = PdfSection(title: string, body: string)

  /** One PDF section: the sanitised title over the sanitised content. */
  function PdfCell(title: string, c: Content): PdfSection
  {
    PdfSection(Sanitized(title), Sanitized(FormatContent(c)))
  }

  /** Everything the PDF is given can be encoded in latin-1. */
  lemma PdfCellIsLatin1(title: string, c: Content)
    ensures forall j :: 0 <= j < |PdfCell(title, c).title| ==> PdfCell(title, c).title[j] as int <= 255
    ensures forall j :: 0 <= j < |PdfCell(title, c).body| ==> PdfCell(title, c).body[j] as int <= 255
  {
    SanitizedIsLatin1(title);
    SanitizedIsLatin1(FormatContent(c));
  }

  /** The loop over the sections: one sanitised cell per section, in order. */
  method PdfCells(sections: seq<(string, Content)>) returns (cells: seq<PdfSection>)
    ensures |cells| == |sections|
    ensures forall k :: 0 <= k < |sections| ==> cells[k] == PdfCell(sections[k].0, sections[k].1)
  {
    cells := [];
    var i := 0;
    while i < |sections|
      invariant 0 <= i <= |sections|
      invariant |cells| == i
      invariant forall k :: 0 <= k < i ==> cells[k] == PdfCell(sections[k].0, sections[k].1)
    {
      var (title, content) := sections[i];
      var safeTitle := SanitizeText(title);
      var safeContent := SanitizeText(FormatContent(content));
      cells := cells + [PdfSection(safeTitle, safeContent)];
      i := i + 1;
    }
  }

  /** The text `to_pdf_memo` writes: the sanitised heading, then one cell per
      memo section, in the memo's section order. */
  method PdfMemoText(m: InvestmentMemo, name: string) returns (heading: string, cells: seq<PdfSection>)
    ensures heading == "Investment Memo: " + Sanitized(name)
    ensures |cells| == |SectionTitles|
    ensures forall i :: 0 <= i < |cells| ==> cells[i] == PdfCell(SectionTitles[i], MemoSections(m)[i].1)
  {
    var safeName := SanitizeText(name);
    heading := "Investment Memo: " + safeName;
    var sections := MemoSections(m);
    cells := PdfCells(sections);
  }
}
