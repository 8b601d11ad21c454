/** The prose context block: fact lines, the selected excerpts, the precomputed date lines and the
    grounding notes, and how long the block can get. */
module Prose {
  import opened Text
  import opened Anchor
  import opened Wrappers
  import opened Packer
  import opened PackerBudget
  import opened Scenarios
  import PackerGrown

  /** Every section heading starts with this mark. */
  const MARK := "### "
  const FACTS_HEADER := MARK + "Facts Alice remembers (with session dates):"
  const EXCERPTS_HEADER := MARK + "Retrieved chat history excerpts:"
  const DERIVED_SECTION_HEADER := MARK + "Derived date arithmetic (precomputed):"
  const DERIVED_SECTION_MAX_CHARS := 1600

  function Header(e: Entry): string {
    "[Session " + e.sessionId + " | " + e.date + " | excerpt " + Str(e.chunkIndex + 1) + "]"
  }

  /** Rendered cost of an entry: header line, text and separators. */
  function ProseCost(e: Entry): int {
    |Header(e)| + |e.text| + 3
  }

  // ---------- derived lines ----------

  function DerivedFrom(raw: seq<string>, n: nat): nat
    requires n <= |raw| && LineCost(raw[..n]) <= DERIVED_SECTION_MAX_CHARS
    decreases |raw| - n
  {
    if n < |raw| && LineCost(raw[..n]) + |raw[n]| + 1 <= DERIVED_SECTION_MAX_CHARS then
      assert raw[..n + 1][..n] == raw[..n];
      DerivedFrom(raw, n + 1)
    else n
  }

  lemma {:induction false} DerivedIsMaximal(raw: seq<string>, n: nat)
    requires n <= |raw| && LineCost(raw[..n]) <= DERIVED_SECTION_MAX_CHARS
    ensures var m := DerivedFrom(raw, n);
            && n <= m <= |raw|
            && LineCost(raw[..m]) <= DERIVED_SECTION_MAX_CHARS
            && (m < |raw| ==> LineCost(raw[..m + 1]) > DERIVED_SECTION_MAX_CHARS)
    decreases |raw| - n
  {
    if n < |raw| {
      assert raw[..n + 1][..n] == raw[..n];
      if LineCost(raw[..n]) + |raw[n]| + 1 <= DERIVED_SECTION_MAX_CHARS {
        DerivedIsMaximal(raw, n + 1);
      }
    }
  }

  /** Whole lines only, as many leading ones as the section's cap allows. */
  method DerivedPackLines(raw: seq<string>) returns (lines: seq<string>)
    ensures lines <= raw && LineCost(lines) <= 1600
    ensures |lines| < |raw| ==> LineCost(raw[..|lines| + 1]) > 1600
    ensures lines == DerivedLines(raw)
  {
    lines := [];
    var chars := 0;
    for i := 0 to |raw|
      invariant lines == raw[..i] && chars == LineCost(lines) <= DERIVED_SECTION_MAX_CHARS
      invariant DerivedFrom(raw, i) == DerivedFrom(raw, 0)
    {
      assert raw[..i + 1][..i] == raw[..i];
      if chars + |raw[i]| + 1 > DERIVED_SECTION_MAX_CHARS {
        DerivedIsMaximal(raw, i);
        return;
      }
      lines := lines + [raw[i]];
      chars := chars + |raw[i]| + 1;
    }
  }

  function DerivedLines(raw: seq<string>): seq<string> {
    DerivedIsMaximal(raw, 0);
    raw[..DerivedFrom(raw, 0)]
  }

  // ---------- the block ----------

  datatype Content = Content(facts: seq<string>, grounding: seq<string>, derived: seq<string>)

  /** What is charged before any excerpt is priced. */
  function Charged(c: Content): nat {
    (if c.facts == [] then 0 else LineCost([FACTS_HEADER] + c.facts))
    + (if c.grounding == [] then 0 else LineCost(c.grounding) + 1)
  }

  function ExcerptLines(es: seq<Entry>): seq<string> {
    if |es| == 0 then []
    else ExcerptLines(es[..|es| - 1]) + [Header(es[|es| - 1]), es[|es| - 1].text, ""]
  }

  /** A section is set off from what is above it by one blank line. */
  function Section(above: seq<string>, section: seq<string>): seq<string> {
    above + (if above == [] then [] else [""]) + section
  }

  function FactSection(c: Content): seq<string> {
    if c.facts == [] then [] else [FACTS_HEADER] + c.facts
  }

  function UpToExcerpts(c: Content, selected: seq<Entry>): seq<string> {
    if selected == [] then FactSection(c) else Section(FactSection(c), [EXCERPTS_HEADER] + ExcerptLines(selected))
  }

  function UpToDerived(c: Content, selected: seq<Entry>): seq<string> {
    if c.derived == [] then UpToExcerpts(c, selected)
    else Section(UpToExcerpts(c, selected), [DERIVED_SECTION_HEADER] + c.derived)
  }

  function BlockLines(c: Content, selected: seq<Entry>): seq<string> {
    if c.grounding == [] then UpToDerived(c, selected) else Section(UpToDerived(c, selected), c.grounding)
  }

  method AppendSection(above: seq<string>, section: seq<string>) returns (lines: seq<string>)
    ensures lines == Section(above, section)
  {
    lines := above;
    if lines != [] {
      lines := lines + [""];
    }
    lines := lines + section;
  }

  method ListExcerpts(selected: seq<Entry>) returns (lines: seq<string>)
    ensures lines == ExcerptLines(selected)
  {
    lines := [];
    for i := 0 to |selected|
      invariant lines == ExcerptLines(selected[..i])
    {
      assert selected[..i + 1][..i] == selected[..i];
      lines := lines + [Header(selected[i]), selected[i].text, ""];
    }
    assert selected[..|selected|] == selected;
  }

  /** The facts are charged what their section takes with one newline behind it, the notes the same and one more
      for the blank line before them. */
  method ChargeSections(c: Content) returns (lines: seq<string>, used: nat)
    ensures lines == FactSection(c) && used == Charged(c)
    ensures used == (if c.facts == [] then 0 else |Join("\n", lines)| + 1)
                    + (if c.grounding == [] then 0 else |Join("\n", c.grounding)| + 2)
  {
    lines, used := [], 0;
    if c.facts != [] {
      lines := [FACTS_HEADER] + c.facts;
      used := LineCost(lines);
      JoinLength('\n', lines);
    }
    if c.grounding != [] {
      used := used + LineCost(c.grounding) + 1;
      JoinLength('\n', c.grounding);
    }
  }

  method RenderContextBlock(q: Query, sources: seq<Source>, facts: seq<string>, grounding: seq<string>,
                            rawDerived: seq<string>, budget: int)
    returns (block: string, excerptCount: nat)
    ensures var c := Content(facts, grounding, DerivedLines(rawDerived));
            var selected := Select(q, sources, ProseCost, budget, Charged(c));
            block == Strip(Join("\n", BlockLines(c, selected))) && excerptCount == |selected|
  {
    var derived := DerivedPackLines(rawDerived);
    var c := Content(facts, grounding, derived);
    var lines, used := ChargeSections(c);
    var selected := SelectExcerpts(q, sources, ProseCost, budget, used);
    excerptCount := |selected|;
    var excerptLines := ListExcerpts(selected);
    ExcerptsCostTheirLines(selected);
    if excerptLines != [] {
      lines := AppendSection(lines, [EXCERPTS_HEADER] + excerptLines);
    }
    if derived != [] {
      lines := AppendSection(lines, [DERIVED_SECTION_HEADER] + derived);
    }
    if grounding != [] {
      lines := AppendSection(lines, grounding);
    }
    block := Strip(Join("\n", lines));
  }

  // ---------- layout ----------

  /** The sections that have something to show, in the order of the block. */
  function Sections(c: Content, selected: seq<Entry>): seq<seq<string>> {
    (if c.facts == [] then [] else [[FACTS_HEADER] + c.facts])
    + (if selected == [] then [] else [[EXCERPTS_HEADER] + ExcerptLines(selected)])
    + (if c.derived == [] then [] else [[DERIVED_SECTION_HEADER] + c.derived])
    + (if c.grounding == [] then [] else [c.grounding])
  }

  /** Sections one below the other, a blank line between two of them. */
  function Stacked(sections: seq<seq<string>>): seq<string> {
    if |sections| == 0 then []
    else if |sections| == 1 then sections[0]
    else Stacked(sections[..|sections| - 1]) + [""] + sections[|sections| - 1]
  }

  lemma StackOne(sections: seq<seq<string>>, section: seq<string>)
    requires forall i :: 0 <= i < |sections| ==> sections[i] != []
    ensures Stacked(sections + [section]) == Section(Stacked(sections), section)
    ensures Stacked(sections) == [] <==> sections == []
  {
    assert (sections + [section])[..|sections|] == sections;
    if |sections| == 0 {
      assert [] + [section] == [section];
    }
  }

  /** The block is its sections in this order: facts, excerpts, derived dates, grounding notes, each only if it has
      something to show, under its heading, and one blank line apart. */
  lemma BlockIsSections(c: Content, selected: seq<Entry>)
    ensures BlockLines(c, selected) == Stacked(Sections(c, selected))
  {
    var facts := if c.facts == [] then [] else [[FACTS_HEADER] + c.facts];
    var excerpts := if selected == [] then [] else [[EXCERPTS_HEADER] + ExcerptLines(selected)];
    var derived := if c.derived == [] then [] else [[DERIVED_SECTION_HEADER] + c.derived];
    assert Stacked(facts) == FactSection(c);
    StackMore(facts, excerpts);
    StackMore(facts + excerpts, derived);
    StackMore(facts + excerpts + derived, if c.grounding == [] then [] else [c.grounding]);
  }

  lemma StackMore(sections: seq<seq<string>>, more: seq<seq<string>>)
    requires |more| <= 1 && forall i :: 0 <= i < |sections| ==> sections[i] != []
    ensures Stacked(sections + more) == if more == [] then Stacked(sections) else Section(Stacked(sections), more[0])
  {
    if more == [] {
      assert sections + more == sections;
    } else {
      assert more == [more[0]];
      StackOne(sections, more[0]);
    }
  }

  lemma {:induction false} ExcerptConcat(a: seq<Entry>, b: seq<Entry>)
    ensures ExcerptLines(a + b) == ExcerptLines(a) + ExcerptLines(b)
  {
    if |b| == 0 {
      assert a + b == a;
    } else {
      var n := |b| - 1;
      assert (a + b)[..|a + b| - 1] == a + b[..n];
      ExcerptConcat(a, b[..n]);
    }
  }

  lemma {:induction false} ExcerptCount(es: seq<Entry>)
    ensures |ExcerptLines(es)| == 3 * |es|
  {
    if |es| > 0 {
      ExcerptCount(es[..|es| - 1]);
    }
  }

  lemma OneExcerpt(e: Entry)
    ensures ExcerptLines([e]) == [Header(e), e.text, ""]
  {
    assert [e][..0] == [] && ExcerptLines([]) == [];
  }

  lemma MiddleOf(a: seq<string>, m: seq<string>, b: seq<string>)
    ensures (a + m + b)[|a|..|a| + |m|] == m
  {
  }

  lemma EntryLines(es: seq<Entry>, i: nat)
    requires i < |es|
    ensures |ExcerptLines(es)| == 3 * |es|
    ensures ExcerptLines(es)[3 * i..3 * i + 3] == [Header(es[i]), es[i].text, ""]
  {
    var before, after := es[..i], es[i + 1..];
    assert es == before + [es[i]] + after;
    ExcerptConcat(before + [es[i]], after);
    ExcerptConcat(before, [es[i]]);
    OneExcerpt(es[i]);
    ExcerptCount(es);
    ExcerptCount(before);
    MiddleOf(ExcerptLines(before), [Header(es[i]), es[i].text, ""], ExcerptLines(after));
  }

  /** Each excerpt takes three lines: its label with session, date and the chunk's number counted from 1, its text,
      and a blank line. */
  lemma ExcerptLinesAt(es: seq<Entry>, i: nat)
    requires i < |es|
    ensures |ExcerptLines(es)| == 3 * |es|
    ensures var head := "[Session " + es[i].sessionId + " | " + es[i].date + " | excerpt " + Str(es[i].chunkIndex + 1) + "]";
            ExcerptLines(es)[3 * i..3 * i + 3] == [head, es[i].text, ""]
  {
    EntryLines(es, i);
  }

  // ---------- length ----------

  lemma CostIsPositive()
    ensures Positive(ProseCost)
  {
  }

  /** Joining a text to an entry adds its characters and one newline. */
  function JoinedChars(text: string): nat {
    |text| + 1
  }

  lemma CostIsAdditive()
    ensures PackerGrown.Additive(ProseCost, JoinedChars)
  {
    forall e: Entry, text: string
      ensures ProseCost(e.(text := e.text + "\n" + text)) == ProseCost(e) + JoinedChars(text)
      ensures ProseCost(e.(text := text + "\n" + e.text)) == ProseCost(e) + JoinedChars(text)
    {
      assert Header(e.(text := e.text + "\n" + text)) == Header(e) == Header(e.(text := text + "\n" + e.text));
    }
  }

  lemma LineCostOne(line: string)
    ensures LineCost([line]) == |line| + 1
  {
    assert [line][..0] == [];
  }

  /** What an entry is charged is exactly what its three lines take. */
  lemma {:induction false} ExcerptsCostTheirLines(es: seq<Entry>)
    ensures LineCost(ExcerptLines(es)) == Total(ProseCost, es)
    ensures es != [] ==> ExcerptLines(es) != []
  {
    if |es| > 0 {
      var e := es[|es| - 1];
      ExcerptsCostTheirLines(es[..|es| - 1]);
      LineCostConcat(ExcerptLines(es[..|es| - 1]), [Header(e), e.text, ""]);
      assert [Header(e), e.text, ""] == [Header(e)] + ([e.text] + [""]);
      LineCostConcat([Header(e)], [e.text] + [""]);
      LineCostConcat([e.text], [""]);
      LineCostOne(Header(e));
      LineCostOne(e.text);
      LineCostOne("");
    }
  }

  lemma SectionCost(above: seq<string>, section: seq<string>)
    ensures LineCost(Section(above, section)) == LineCost(above) + (if above == [] then 0 else 1) + LineCost(section)
  {
    LineCostConcat(above + (if above == [] then [] else [""]), section);
    LineCostConcat(above, if above == [] then [] else [""]);
    LineCostOne("");
  }

  lemma HeadedSectionCost(above: seq<string>, header: string, body: seq<string>)
    ensures LineCost(Section(above, [header] + body))
         == LineCost(above) + (if above == [] then 0 else 1) + |header| + 1 + LineCost(body)
  {
    SectionCost(above, [header] + body);
    LineCostConcat([header], body);
    LineCostOne(header);
  }

  /** Characters of the joined block that are never charged: the excerpt heading with its blank line, and
      the derived section with its own; a note without anything above it was charged one too many. */
  function Uncharged(c: Content, excerpts: bool): int {
    (if excerpts then |EXCERPTS_HEADER| + 1 + (if c.facts == [] then 0 else 1) else 0)
    + (if c.derived == [] then 0
       else |DERIVED_SECTION_HEADER| + 1 + LineCost(c.derived) + (if c.facts == [] && !excerpts then 0 else 1))
    - (if c.grounding != [] && c.facts == [] && !excerpts && c.derived == [] then 1 else 0)
  }

  /** The block before stripping is exactly as long as what was charged for it plus what is never charged
      (less the newline a join does not end with). So the whole text keeps the budget if and only if
      the charged part leaves room for the uncharged part. */
  lemma BlockLength(c: Content, selected: seq<Entry>)
    requires BlockLines(c, selected) != []
    ensures |Join("\n", BlockLines(c, selected))|
         == Charged(c) + Total(ProseCost, selected) + Uncharged(c, selected != []) - 1
  {
    ExcerptsCostTheirLines(selected);
    HeadedSectionCost(FactSection(c), EXCERPTS_HEADER, ExcerptLines(selected));
    HeadedSectionCost(UpToExcerpts(c, selected), DERIVED_SECTION_HEADER, c.derived);
    SectionCost(UpToDerived(c, selected), c.grounding);
    JoinLength('\n', BlockLines(c, selected));
  }

  /** If the fixed sections fit, the block is at most 37 characters over budget, plus the bounded derived
      section. If they do not, no excerpt is emitted. */
  lemma BlockIsBounded(q: Query, sources: seq<Source>, facts: seq<string>, grounding: seq<string>,
                       rawDerived: seq<string>, budget: int)
    ensures var c := Content(facts, grounding, DerivedLines(rawDerived));
            var selected := Select(q, sources, ProseCost, budget, Charged(c));
            if Charged(c) <= budget then
              |Strip(Join("\n", BlockLines(c, selected)))|
              <= budget + 37 + (if c.derived == [] then 0 else 1 + |DERIVED_SECTION_HEADER| + 1 + 1600)
            else selected == []
  {
    var c := Content(facts, grounding, DerivedLines(rawDerived));
    var selected := Select(q, sources, ProseCost, budget, Charged(c));
    CostIsPositive();
    if Charged(c) > budget {
      OverspentSelectsNothing(q, sources, ProseCost, budget, Charged(c));
    } else {
      AccountingIsExact(q, sources, ProseCost, budget, Charged(c));
      StripShortens(Join("\n", BlockLines(c, selected)));
      DerivedIsMaximal(rawDerived, 0);
      if BlockLines(c, selected) != [] {
        BlockLength(c, selected);
      }
    }
  }

  predicate StartsVisibly(s: string) {
    s != "" && !IsSpace(s[0])
  }

  predicate EndsVisibly(s: string) {
    s != "" && !IsSpace(s[|s| - 1])
  }

  lemma HeadersAreVisible()
    ensures StartsVisibly(FACTS_HEADER) && StartsVisibly(EXCERPTS_HEADER) && StartsVisibly(DERIVED_SECTION_HEADER)
    ensures |EXCERPTS_HEADER| == 36
  {
    assert FACTS_HEADER[0] == EXCERPTS_HEADER[0] == DERIVED_SECTION_HEADER[0] == '#';
    assert !IsSpace('#');
  }

  lemma JoinStarts(lines: seq<string>)
    requires |lines| > 0 && StartsVisibly(lines[0])
    ensures StartsVisibly(Join("\n", lines))
  {
  }

  lemma {:induction false} JoinEnds(lines: seq<string>)
    requires |lines| > 0 && EndsVisibly(lines[|lines| - 1])
    ensures EndsVisibly(Join("\n", lines))
  {
    if |lines| > 1 {
      JoinEnds(lines[1..]);
    }
  }

  /** The last line with text in it: excerpts are followed by a blank line. */
  function LastLine(c: Content, selected: seq<Entry>): string {
    if c.grounding != [] then c.grounding[|c.grounding| - 1]
    else if c.derived != [] then c.derived[|c.derived| - 1]
    else if selected != [] then selected[|selected| - 1].text
    else if c.facts != [] then c.facts[|c.facts| - 1]
    else ""
  }

  /** Nothing but the newline behind the last excerpt is stripped: the last line ends visibly and, where notes stand
      alone, the first one starts visibly. */
  predicate Visible(c: Content, selected: seq<Entry>) {
    && EndsVisibly(LastLine(c, selected))
    && (c.facts == [] && selected == [] && c.derived == [] ==> StartsVisibly(c.grounding[0]))
  }

  /** The newline behind the last excerpt, where nothing follows it. */
  function Trailing(c: Content, selected: seq<Entry>): nat {
    if selected != [] && c.derived == [] && c.grounding == [] then 1 else 0
  }

  lemma BlockStarts(c: Content, selected: seq<Entry>)
    requires Visible(c, selected)
    ensures |BlockLines(c, selected)| > 0 && StartsVisibly(BlockLines(c, selected)[0])
  {
    HeadersAreVisible();
  }

  lemma SectionEnds(above: seq<string>, section: seq<string>)
    requires section != []
    ensures Section(above, section)[|Section(above, section)| - 1] == section[|section| - 1]
  {
  }

  lemma BlockEnds(c: Content, selected: seq<Entry>)
    requires Visible(c, selected) && Trailing(c, selected) == 0
    ensures var lines := BlockLines(c, selected); |lines| > 0 && lines[|lines| - 1] == LastLine(c, selected)
  {
    if c.grounding != [] {
      SectionEnds(UpToDerived(c, selected), c.grounding);
    } else if c.derived != [] {
      SectionEnds(UpToExcerpts(c, selected), [DERIVED_SECTION_HEADER] + c.derived);
    }
  }

  lemma ExcerptLinesEnd(selected: seq<Entry>)
    requires selected != []
    ensures var lines := ExcerptLines(selected);
            |lines| > 1 && lines[|lines| - 1] == "" && lines[|lines| - 2] == selected[|selected| - 1].text
  {
    var e := selected[|selected| - 1];
    assert ExcerptLines(selected) == ExcerptLines(selected[..|selected| - 1]) + [Header(e), e.text, ""];
  }

  lemma BlockEndsInExcerpt(c: Content, selected: seq<Entry>)
    requires Visible(c, selected) && Trailing(c, selected) == 1
    ensures var lines := BlockLines(c, selected);
            |lines| > 1 && lines[|lines| - 1] == "" && lines[|lines| - 2] == LastLine(c, selected)
  {
    ExcerptLinesEnd(selected);
  }

  lemma StripNewline(s: string)
    requires StartsVisibly(s) && EndsVisibly(s)
    ensures Strip(s) == s && Strip(s + "\n") == s
  {
    var t := s + "\n";
    assert t[..|t| - 1] == s && IsSpace('\n') && t[0] == s[0];
    assert StripLeft(t) == t;
    assert StripRight(t) == StripRight(s) == s;
  }

  lemma StrippedJoin(lines: seq<string>)
    requires |lines| > 0 && StartsVisibly(lines[0]) && EndsVisibly(lines[|lines| - 1])
    ensures |Strip(Join("\n", lines))| == |Join("\n", lines)|
  {
    JoinStarts(lines);
    JoinEnds(lines);
    StripNewline(Join("\n", lines));
  }

  lemma StrippedJoinBlank(lines: seq<string>)
    requires |lines| > 1 && StartsVisibly(lines[0]) && EndsVisibly(lines[|lines| - 2]) && lines[|lines| - 1] == ""
    ensures |Strip(Join("\n", lines))| == |Join("\n", lines)| - 1
  {
    var shown := lines[..|lines| - 1];
    JoinStarts(shown);
    JoinEnds(shown);
    JoinConcat("\n", shown, [""]);
    assert lines == shown + [""];
    assert Join("\n", lines) == Join("\n", shown) + "\n";
    StripNewline(Join("\n", shown));
  }

  /** The returned block is exactly as long as what was charged for it and what is never charged, so it keeps a
      budget if and only if the charged part leaves room for the rest. */
  lemma RenderedLength(c: Content, selected: seq<Entry>, budget: int)
    requires Visible(c, selected)
    ensures var block := Strip(Join("\n", BlockLines(c, selected)));
            var length := Charged(c) + Total(ProseCost, selected) + Uncharged(c, selected != []) - 1 - Trailing(c, selected);
            |block| == length && (|block| <= budget <==> length <= budget)
  {
    BlockStarts(c, selected);
    BlockLength(c, selected);
    if Trailing(c, selected) == 0 {
      BlockEnds(c, selected);
      StrippedJoin(BlockLines(c, selected));
    } else {
      BlockEndsInExcerpt(c, selected);
      StrippedJoinBlank(BlockLines(c, selected));
    }
  }

  /** The 37 characters are real: whenever facts, excerpts and notes are present, the block is exactly 37
      characters longer than what was charged. */
  lemma BlockOverruns(c: Content, selected: seq<Entry>)
    requires c.facts != [] && selected != [] && c.derived == [] && c.grounding != []
    requires EndsVisibly(c.grounding[|c.grounding| - 1])
    ensures |Strip(Join("\n", BlockLines(c, selected)))| == Charged(c) + Total(ProseCost, selected) + 37
  {
    HeadersAreVisible();
    RenderedLength(c, selected, 0);
  }

  /** By how much the renderer's block for one source exceeds a budget. */
  function Overrun(q: Query, s: Source, c: Content, budget: int): int {
    |Strip(Join("\n", BlockLines(c, Select(q, [s], ProseCost, budget, Charged(c)))))| - budget
  }

  /** The bound is reached: for any source of one chunk, and a budget that the charged sections and this chunk use
      up, the renderer's block is 37 characters over budget. */
  lemma BudgetOverrun(q: Query, s: Source, chunk: Chunk, c: Content, budget: int)
    requires s.Source? && s.chunks == [chunk] && Strip(chunk.text) != ""
    requires c.facts != [] && c.derived == [] && c.grounding != [] && EndsVisibly(c.grounding[|c.grounding| - 1])
    requires budget == Charged(c) + ProseCost(EntryOf(q, 0, s, chunk))
    ensures Overrun(q, s, c, budget) == 37
  {
    var e := EntryOf(q, 0, s, chunk);
    SelectsOne(q, s, chunk, ProseCost, budget, Charged(c));
    BlockOverruns(c, [e]);
    TotalAppend(ProseCost, [], e);
    assert [] + [e] == [e];
  }

  // ---------- anchoring and the prose cost ----------

  /** Two entries of one source differ in cost by their texts and their printed ordinals. */
  lemma CostDifference(a: Entry, b: Entry)
    requires a.sessionId == b.sessionId && a.date == b.date
    ensures ProseCost(a) - ProseCost(b)
         == (|a.text| - |b.text|) + (|Str(a.chunkIndex + 1)| - |Str(b.chunkIndex + 1)|)
  {
    var head := "[Session " + a.sessionId + " | " + a.date + " | excerpt ";
    assert Header(a) == head + Str(a.chunkIndex + 1) + "]";
    assert Header(b) == head + Str(b.chunkIndex + 1) + "]";
  }

  lemma ShorterCostsNoMore(a: Entry, b: Entry)
    requires a.sessionId == b.sessionId && a.date == b.date
    requires |a.text| + |Str(a.chunkIndex + 1)| <= |b.text| + |Str(b.chunkIndex + 1)|
    ensures ProseCost(a) <= ProseCost(b)
  {
    CostDifference(a, b);
  }

  /** An anchored entry never costs more than the chunk it replaces. */
  lemma AnchoredCostsNoMore(q: Query, c: Candidate)
    requires |c.ranked| > 0
    ensures ProseCost(Offer(q, c)) <= ProseCost(c.ranked[0])
  {
    OfferIsShorter(q, c);
    OfferKeepsLabel(q, c);
    ShorterCostsNoMore(Offer(q, c), c.ranked[0]);
  }

  lemma {:induction false} OffersAreDominated(q: Query, cs: seq<Candidate>)
    requires Presentable(cs)
    ensures Dominated(q, cs, ProseCost)
    ensures OfferTotal(q, cs, ProseCost) <= OfferTotal(Baseline(q), cs, ProseCost)
  {
    if |cs| > 0 {
      var n := |cs| - 1;
      OffersAreDominated(q, cs[..n]);
      AnchoredCostsNoMore(q, cs[n]);
      BaselineOffersBest(q, cs[n]);
      forall i | 0 <= i < |cs|
        ensures ProseCost(Offer(q, cs[i])) <= ProseCost(cs[i].ranked[0])
      {
        AnchoredCostsNoMore(q, cs[i]);
      }
    }
  }

  /** If the best chunks of all sources fit together, then with anchoring every source still appears with its
      guaranteed text intact. */
  lemma FittingSurvivesAnchoring(q: Query, sources: seq<Source>, budget: int, used: int, s: nat)
    requires Presentable(Collect(q, sources))
    requires used + OfferTotal(Baseline(q), Collect(q, sources), ProseCost) <= budget
    requires s < |Collect(q, sources)|
    ensures exists e :: e in Select(q, sources, ProseCost, budget, used) && Keeps(Offer(q, Collect(q, sources)[s]), e)
  {
    CostIsPositive();
    OffersAreDominated(q, Collect(q, sources));
    EverySourceShown(q, sources, ProseCost, budget, used, s);
  }

  /** A continuation missing from an excerpt of the prose block would overflow the budget by its own characters and
      one newline. */
  lemma ProseContinuations(q: Query, cs: seq<Candidate>, budget: int, used: int, i: nat)
    requires Presentable(cs) && i < |AdmitAll(q, cs, ProseCost, budget, used).selected|
    ensures var p, r := AdmitAll(q, cs, ProseCost, budget, used), PackAll(q, cs, ProseCost, budget, used);
            && PackerGrown.SourcesKnown(cs, p) && |p.selected| <= |r.selected|
            && PackerGrown.MissingOverflows(r.selected[i], Offer(q, cs[p.spans[i].src]),
                                            PackerGrown.DownText(q, cs[p.spans[i].src]),
                                            PackerGrown.UpText(q, cs[p.spans[i].src]), JoinedChars, budget - r.used)
  {
    CostIsAdditive();
    CostIsPositive();
    PackerGrown.OnlyOverflowIsMissing(q, cs, ProseCost, JoinedChars, budget, used, i);
  }

  /** Under the prose cost: admission is the same as without anchoring if and only if no turned-away source
      comes within reach of what anchoring saves. */
  lemma ProseAdmissionUnchanged(q: Query, cs: seq<Candidate>, budget: int, used: int)
    requires Presentable(cs)
    ensures SameAdmission(q, cs, |cs|, ProseCost, budget, used) <==> NoneInReach(q, cs, |cs|, ProseCost, budget, used)
  {
    OffersAreDominated(q, cs);
    DominatedAdmissionUnchanged(q, cs, ProseCost, budget, used);
  }

  lemma ItemIsCheaper(q: Query, c: Candidate, item: string)
    requires |c.ranked| > 0 && c.ranked[0].chunkIndex == 1 && |item| < |c.ranked[0].text|
    requires Offer(q, c) == c.ranked[0].(chunkIndex := 0, text := item)
    ensures ProseCost(Offer(q, c)) < ProseCost(c.ranked[0])
  {
    OneDigit();
    CostDifference(Offer(q, c), c.ranked[0]);
  }

  lemma CheaperItemAdmits(q: Query, cs: seq<Candidate>, item: string, long: string)
    requires |cs| == 2 && Presentable(cs) && Replaced(q, cs, item, long) && |item| < |long|
    ensures AnchoringAdmits(q, cs, ProseCost)
  {
    ItemIsCheaper(q, cs[0], item);
    CostIsPositive();
    CheaperAdmits(q, cs, ProseCost, BestCosts(cs, ProseCost) - 1);
  }

  /** The claim that anchoring leaves pass-1 admission unchanged is false: for two sessions like these, whatever
      the texts, one budget admits the second with anchoring and turns it away without. */
  lemma AdmissionCanChange(q: Query, item: string, long: string, short: string)
    requires Presented(item, long, short) && Competing(q, item, long)
    ensures AnchoringAdmits(q, Collect(q, Sessions(item, long, short)), ProseCost)
  {
    var cs := Collect(q, Sessions(item, long, short));
    Offered(q, item, long, short, cs);
    CheaperItemAdmits(q, cs, item, long);
  }
}
