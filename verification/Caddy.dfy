/** Splitting a normalized Caddyfile into site blocks by brace depth, and the check that every block which
    proxies to Alice demands a client certificate itself. */
module Caddy {
  import opened Text
  import opened Wrappers

  /** An address line and the block's body text, as the splitter returns them. */
  datatype Block = Block(address: string, body: string)

  /** A site as it is written: the lines above it, its address and the lines between its braces. */
  datatype Site = Site(above: seq<string>, address: string, body: seq<string>)

  // ---------- the splitter ----------

  /** `text.splitlines()`, for text whose only line break is the line feed. */
  function Lines(text: string): seq<string> {
    var pieces := Split(text);
    if pieces[|pieces| - 1] == "" then pieces[..|pieces| - 1] else pieces
  }

  datatype Scanner = Scanner(blocks: seq<Block>, address: Option<string>, body: seq<string>, depth: int)

  predicate Opens(stripped: string) {
    stripped != "" && stripped[|stripped| - 1] == '{'
  }

  /** `s.count(c)`. */
  function Count(s: string, c: char): int {
    if s == "" then 0 else Count(s[..|s| - 1], c) + if s[|s| - 1] == c then 1 else 0
  }

  /** What a line does to the brace depth. */
  function Delta(line: string): int {
    Count(Strip(line), '{') - Count(Strip(line), '}')
  }

  function Closed(s: Scanner): seq<Block> {
    s.blocks + [Block(if s.address.Some? then s.address.value else "", Join("\n", s.body))]
  }

  function AddressIn(line: string): string
    requires Opens(Strip(line))
  {
    Strip(Strip(line)[..|Strip(line)| - 1])
  }

  function Step(s: Scanner, line: string): Scanner {
    if s.depth == 0 then
      if Opens(Strip(line)) then Scanner(s.blocks, Some(AddressIn(line)), [], 1) else s
    else if s.depth + Delta(line) <= 0 then Scanner(Closed(s), None, [], 0)
    else Scanner(s.blocks, s.address, s.body + [line], s.depth + Delta(line))
  }

  function Run(s: Scanner, lines: seq<string>): Scanner {
    if |lines| == 0 then s else Step(Run(s, lines[..|lines| - 1]), lines[|lines| - 1])
  }

  function Finish(s: Scanner): seq<Block> {
    if s.address.Some? then Closed(s) else s.blocks
  }

  const START := Scanner([], None, [], 0)

  function Blocks(lines: seq<string>): seq<Block> {
    Finish(Run(START, lines))
  }

  lemma RunStep(s: Scanner, lines: seq<string>, i: nat)
    requires i < |lines|
    ensures Run(s, lines[..i + 1]) == Step(Run(s, lines[..i]), lines[i])
  {
    assert lines[..i + 1][..i] == lines[..i];
  }

  method SiteBlocks(text: string) returns (blocks: seq<Block>)
    ensures blocks == Blocks(Lines(text))
  {
    var lines := Lines(text);
    blocks := [];
    var address, body, depth: int := None, [], 0;
    for i := 0 to |lines|
      invariant Run(START, lines[..i]) == Scanner(blocks, address, body, depth)
    {
      RunStep(START, lines, i);
      var stripped := Strip(lines[i]);
      if depth == 0 {
        if stripped == "" {
          continue;
        }
        if stripped[|stripped| - 1] == '{' {
          address, body, depth := Some(Strip(stripped[..|stripped| - 1])), [], 1;
        }
        continue;
      }
      depth := depth + (Count(stripped, '{') - Count(stripped, '}'));
      if depth <= 0 {
        blocks := blocks + [Block(if address.Some? then address.value else "", Join("\n", body))];
        address, body, depth := None, [], 0;
        continue;
      }
      body := body + [lines[i]];
    }
    assert lines[..|lines|] == lines;
    if address.Some? {
      blocks := blocks + [Block(address.value, Join("\n", body))];
    }
  }

  // ---------- rendering ----------

  function Braces(n: nat): string {
    seq(n, _ => '}')
  }

  function Depth(body: seq<string>): int {
    if |body| == 0 then 1 else Depth(body[..|body| - 1]) + Delta(body[|body| - 1])
  }

  /** The running depth never closes the block within its body. */
  predicate StaysOpen(body: seq<string>) {
    forall k :: 0 <= k <= |body| ==> Depth(body[..k]) > 0
  }

  function Opening(address: string): string {
    if address == "" then "{" else address + " {"
  }

  /** As many braces as the body leaves open. */
  function Closing(body: seq<string>): string {
    Braces(if Depth(body) > 0 then Depth(body) else 1)
  }

  function Render(site: Site): seq<string> {
    [Opening(site.address)] + site.body + [Closing(site.body)]
  }

  /** All sites, each behind the lines above it, and the lines behind the last. */
  function RenderAll(sites: seq<Site>, after: seq<string>): seq<string> {
    if |sites| == 0 then after else sites[0].above + Render(sites[0]) + RenderAll(sites[1..], after)
  }

  /** A line that opens no block: blank, a comment, or anything else that does not end in an opening brace. */
  predicate Outside(line: string) {
    Strip(line) == "" || Strip(line)[|Strip(line)| - 1] != '{'
  }

  predicate AllOutside(lines: seq<string>) {
    forall k :: 0 <= k < |lines| ==> Outside(lines[k])
  }

  predicate Separated(sites: seq<Site>, after: seq<string>) {
    AllOutside(after) && forall i :: 0 <= i < |sites| ==> AllOutside(sites[i].above)
  }

  function BlockOf(site: Site): Block {
    Block(site.address, Join("\n", site.body))
  }

  function Expected(sites: seq<Site>): (r: seq<Block>)
    ensures |r| == |sites|
  {
    seq(|sites|, i requires 0 <= i < |sites| => BlockOf(sites[i]))
  }

  predicate WellFormed(site: Site) {
    Strip(site.address) == site.address && StaysOpen(site.body)
  }

  // ---------- facts about stripping ----------

  lemma {:induction false} StripLeftEnds(s: string)
    ensures StripLeft(s) == "" || !IsSpace(StripLeft(s)[0])
    ensures s != "" && !IsSpace(s[|s| - 1]) ==> StripLeft(s) != "" && StripLeft(s)[|StripLeft(s)| - 1] == s[|s| - 1]
  {
    if s != "" && IsSpace(s[0]) {
      StripLeftEnds(s[1..]);
    }
  }

  lemma {:induction false} StripRightEnds(s: string)
    ensures StripRight(s) <= s
    ensures StripRight(s) == "" || !IsSpace(StripRight(s)[|StripRight(s)| - 1])
  {
    if s != "" && IsSpace(s[|s| - 1]) {
      StripRightEnds(s[..|s| - 1]);
    }
  }

  lemma StripTrims(s: string)
    ensures Trimmed(Strip(s))
    ensures Trimmed(s) ==> Strip(s) == s
    ensures s != "" && !IsSpace(s[|s| - 1]) ==> Strip(s) != "" && Strip(s)[|Strip(s)| - 1] == s[|s| - 1]
  {
    StripLeftEnds(s);
    StripRightEnds(StripLeft(s));
  }

  lemma OpeningOpens(address: string)
    ensures Opens(Strip(Opening(address)))
    ensures AddressIn(Opening(address)) == address <==> Strip(address) == address
  {
    var line := Opening(address);
    StripTrims(line);
    StripTrims(address);
    var stripped := Strip(line);
    StripTrims(stripped[..|stripped| - 1]);
    if Trimmed(address) && address != "" {
      assert Trimmed(line) && stripped == line;
      assert stripped[..|stripped| - 1] == address + " ";
      StripRightEnds(address + " ");
      assert StripLeft(address + " ") == address + " ";
      assert (address + " ")[..|address|] == address;
      assert StripRight(address + " ") == StripRight(address);
    }
  }

  lemma {:induction false} BraceLine(n: nat)
    ensures Strip(Braces(n)) == Braces(n)
    ensures Delta(Braces(n)) + n == 0
  {
    StripTrims(Braces(n));
    CountBraces(n);
  }

  lemma {:induction false} CountBraces(n: nat)
    ensures Count(Braces(n), '{') == 0 && Count(Braces(n), '}') == n
  {
    if n > 0 {
      CountBraces(n - 1);
      assert Braces(n) == Braces(n - 1) + ['}'];
    }
  }

  // ---------- running the splitter ----------

  lemma {:induction false} RunConcat(s: Scanner, a: seq<string>, b: seq<string>)
    ensures Run(s, a + b) == Run(Run(s, a), b)
  {
    if |b| == 0 {
      assert a + b == a;
    } else {
      var n := |b| - 1;
      assert (a + b)[..|a + b| - 1] == a + b[..n];
      RunConcat(s, a, b[..n]);
    }
  }

  lemma RunOne(s: Scanner, line: string)
    ensures Run(s, [line]) == Step(s, line)
  {
    assert [line][..0] == [];
    assert Run(s, []) == s;
  }

  lemma {:induction false} RunBody(blocks: seq<Block>, address: string, body: seq<string>)
    requires StaysOpen(body)
    ensures Run(Scanner(blocks, Some(address), [], 1), body) == Scanner(blocks, Some(address), body, Depth(body))
  {
    if |body| > 0 {
      var n := |body| - 1;
      var before, line := body[..n], body[n];
      OpenPrefix(body, n);
      RunBody(blocks, address, before);
      DepthIsPositive(before);
      DepthIsPositive(body);
      StepInside(Scanner(blocks, Some(address), before, Depth(before)), line);
      assert body == before + [line];
    }
  }

  lemma StepInside(s: Scanner, line: string)
    requires s.depth > 0 && s.depth + Delta(line) > 0
    ensures Step(s, line) == Scanner(s.blocks, s.address, s.body + [line], s.depth + Delta(line))
  {
  }

  lemma DepthIsPositive(body: seq<string>)
    requires StaysOpen(body)
    ensures Depth(body) > 0
  {
    assert body[..|body|] == body;
  }

  lemma OpenPrefix(body: seq<string>, n: nat)
    requires StaysOpen(body) && n <= |body|
    ensures StaysOpen(body[..n])
  {
    forall k | 0 <= k <= n
      ensures Depth(body[..n][..k]) > 0
    {
      assert body[..n][..k] == body[..k];
    }
  }

  /** A well-formed site is read as exactly itself, and leaves the splitter between blocks. */
  lemma RunSite(blocks: seq<Block>, site: Site)
    requires WellFormed(site)
    ensures Run(Scanner(blocks, None, [], 0), Render(site))
         == Scanner(blocks + [BlockOf(site)], None, [], 0)
  {
    var start := Scanner(blocks, None, [], 0);
    RunOpening(blocks, site);
    RunConcat(start, [Opening(site.address)], site.body);
    RunBody(blocks, site.address, site.body);
    var full := Scanner(blocks, Some(site.address), site.body, Depth(site.body));
    assert site.body[..|site.body|] == site.body;
    assert Depth(site.body) > 0;
    BraceLine(Depth(site.body));
    RunOne(full, Closing(site.body));
    RunConcat(start, [Opening(site.address)] + site.body, [Closing(site.body)]);
  }

  lemma RunOpening(blocks: seq<Block>, site: Site)
    ensures Opens(Strip(Opening(site.address)))
    ensures Run(Scanner(blocks, None, [], 0), [Opening(site.address)])
         == Scanner(blocks, Some(AddressIn(Opening(site.address))), [], 1)
    ensures AddressIn(Opening(site.address)) == site.address <==> Strip(site.address) == site.address
  {
    OpeningOpens(site.address);
    RunOne(Scanner(blocks, None, [], 0), Opening(site.address));
  }

  /** Blocks once found stay; a block once opened ends up in the list under the address it was opened with. */
  lemma {:induction false} BlocksStay(s: Scanner, lines: seq<string>)
    requires s.depth >= 0 && (s.address.Some? <==> s.depth > 0)
    ensures var r := Run(s, lines);
            && r.depth >= 0 && (r.address.Some? <==> r.depth > 0)
            && s.blocks <= Finish(r)
            && (s.address.Some? ==>
                  |Finish(r)| > |s.blocks| && Finish(r)[|s.blocks|].address == s.address.value)
            && (s.blocks < r.blocks || (r.blocks == s.blocks && (s.address.Some? ==> r.address == s.address)))
            && (s.address.Some? && s.blocks < r.blocks ==> r.blocks[|s.blocks|].address == s.address.value)
  {
    if |lines| > 0 {
      BlocksStay(s, lines[..|lines| - 1]);
    }
  }

  // ---------- the round trip ----------

  /** Between blocks, lines that open none are passed over. */
  lemma {:induction false} RunOutside(blocks: seq<Block>, lines: seq<string>)
    requires AllOutside(lines)
    ensures Run(Scanner(blocks, None, [], 0), lines) == Scanner(blocks, None, [], 0)
  {
    if |lines| > 0 {
      RunOutside(blocks, lines[..|lines| - 1]);
      assert Outside(lines[|lines| - 1]);
    }
  }

  lemma SkipAbove(blocks: seq<Block>, sites: seq<Site>, after: seq<string>)
    requires |sites| > 0 && AllOutside(sites[0].above)
    ensures Run(Scanner(blocks, None, [], 0), RenderAll(sites, after))
         == Run(Scanner(blocks, None, [], 0), Render(sites[0]) + RenderAll(sites[1..], after))
  {
    RunOutside(blocks, sites[0].above);
    var above, site, rest := sites[0].above, Render(sites[0]), RenderAll(sites[1..], after);
    assert above + site + rest == above + (site + rest);
    RunConcat(Scanner(blocks, None, [], 0), sites[0].above, Render(sites[0]) + RenderAll(sites[1..], after));
  }

  lemma RunFirst(blocks: seq<Block>, site: Site, rest: seq<string>)
    requires WellFormed(site)
    ensures Run(Scanner(blocks, None, [], 0), Render(site) + rest)
         == Run(Scanner(blocks + [BlockOf(site)], None, [], 0), rest)
  {
    RunSite(blocks, site);
    RunConcat(Scanner(blocks, None, [], 0), Render(site), rest);
  }

  lemma ExpectedStep(blocks: seq<Block>, sites: seq<Site>)
    requires |sites| > 0
    ensures blocks + Expected(sites) == blocks + [BlockOf(sites[0])] + Expected(sites[1..])
  {
    assert Expected(sites) == [BlockOf(sites[0])] + Expected(sites[1..]);
  }

  lemma {:induction false} RunSites(blocks: seq<Block>, sites: seq<Site>, after: seq<string>)
    requires Separated(sites, after) && forall i :: 0 <= i < |sites| ==> WellFormed(sites[i])
    ensures Run(Scanner(blocks, None, [], 0), RenderAll(sites, after)) == Scanner(blocks + Expected(sites), None, [], 0)
    decreases |sites|
  {
    if |sites| == 0 {
      assert Expected(sites) == [];
      RunOutside(blocks, after);
    } else {
      var first, rest := BlockOf(sites[0]), sites[1..];
      SkipAbove(blocks, sites, after);
      RunFirst(blocks, sites[0], RenderAll(rest, after));
      RunSites(blocks + [first], rest, after);
      ExpectedStep(blocks, sites);
    }
  }

  /** A body that closes its block early loses lines: what the splitter reports is shorter than the body. */
  lemma LongerJoin(before: seq<string>, line: string, after: seq<string>)
    requires line != ""
    ensures Join("\n", before) != Join("\n", before + [line] + after)
  {
    var body := before + [line] + after;
    LineCostConcat(before + [line], after);
    LineCostConcat(before, [line]);
    assert LineCost([line]) >= 2 by {
      assert [line][..0] == [];
    }
    JoinLength('\n', body);
    if |before| > 0 {
      JoinLength('\n', before);
    }
  }

  lemma NeutralLine(line: string)
    requires Delta(line) != 0
    ensures line != ""
  {
    assert Strip("") == "";
  }

  lemma CutBodyDiffers(body: seq<string>, k: nat)
    requires k < |body| && body[k] != ""
    ensures Join("\n", body[..k]) != Join("\n", body)
  {
    var before, line, after := body[..k], body[k], body[k + 1..];
    assert body == before + [line] + after;
    LongerJoin(before, line, after);
  }

  /** Where a body that does not stay open is cut. */
  lemma {:induction false} FirstCut(body: seq<string>) returns (k: nat)
    requires !StaysOpen(body)
    ensures k < |body| && StaysOpen(body[..k]) && Depth(body[..k]) + Delta(body[k]) <= 0
  {
    var n := |body| - 1;
    if StaysOpen(body[..n]) {
      k := n;
      forall j | 0 <= j <= n
        ensures Depth(body[..j]) > 0
      {
        assert body[..n][..j] == body[..j];
      }
      assert body[..|body|] == body;
    } else {
      k := FirstCut(body[..n]);
      assert body[..n][..k] == body[..k];
    }
  }

  lemma AfterOpening(blocks: seq<Block>, site: Site, rest: seq<string>)
    ensures Opens(Strip(Opening(site.address)))
    ensures Run(Scanner(blocks, None, [], 0), Render(site) + rest)
         == Run(Scanner(blocks, Some(AddressIn(Opening(site.address))), [], 1),
                site.body + ([Closing(site.body)] + rest))
  {
    RunOpening(blocks, site);
    var lines := site.body + ([Closing(site.body)] + rest);
    assert Render(site) + rest == [Opening(site.address)] + lines;
    RunConcat(Scanner(blocks, None, [], 0), [Opening(site.address)], lines);
  }

  lemma MisreadAddress(blocks: seq<Block>, site: Site, rest: seq<string>)
    requires Strip(site.address) != site.address
    ensures var found := Finish(Run(Scanner(blocks, None, [], 0), Render(site) + rest));
            |found| > |blocks| && found[|blocks|] != BlockOf(site)
  {
    AfterOpening(blocks, site, rest);
    OpeningOpens(site.address);
    BlocksStay(Scanner(blocks, Some(AddressIn(Opening(site.address))), [], 1), site.body + ([Closing(site.body)] + rest));
  }

  lemma MisreadBody(blocks: seq<Block>, site: Site, rest: seq<string>)
    requires Strip(site.address) == site.address && !StaysOpen(site.body)
    ensures var found := Finish(Run(Scanner(blocks, None, [], 0), Render(site) + rest));
            |found| > |blocks| && found[|blocks|] != BlockOf(site)
  {
    AfterOpening(blocks, site, rest);
    OpeningOpens(site.address);
    var k := FirstCut(site.body);
    RunCut(blocks, site.address, site.body, k, [Closing(site.body)] + rest);
    NeutralLine(site.body[k]);
    CutBodyDiffers(site.body, k);
  }

  /** A site that is not well formed is misread at its own place, whatever follows. */
  lemma MisreadSite(blocks: seq<Block>, site: Site, rest: seq<string>)
    requires !WellFormed(site)
    ensures var found := Finish(Run(Scanner(blocks, None, [], 0), Render(site) + rest));
            |found| > |blocks| && found[|blocks|] != BlockOf(site)
  {
    if Strip(site.address) != site.address {
      MisreadAddress(blocks, site, rest);
    } else {
      MisreadBody(blocks, site, rest);
    }
  }

  lemma RunEarlyClose(blocks: seq<Block>, address: string, before: seq<string>, line: string)
    requires StaysOpen(before) && Depth(before) + Delta(line) <= 0
    ensures Delta(line) < 0
    ensures Run(Scanner(blocks, Some(address), [], 1), before + [line])
         == Scanner(blocks + [Block(address, Join("\n", before))], None, [], 0)
  {
    assert before[..|before|] == before;
    assert Depth(before) > 0;
    RunBody(blocks, address, before);
    RunConcat(Scanner(blocks, Some(address), [], 1), before, [line]);
    RunOne(Scanner(blocks, Some(address), before, Depth(before)), line);
  }

  lemma RunCut(blocks: seq<Block>, address: string, body: seq<string>, k: nat, rest: seq<string>)
    requires k < |body| && StaysOpen(body[..k]) && Depth(body[..k]) + Delta(body[k]) <= 0
    ensures Delta(body[k]) < 0
    ensures blocks + [Block(address, Join("\n", body[..k]))]
         <= Finish(Run(Scanner(blocks, Some(address), [], 1), body + rest))
  {
    var before, line, remainder := body[..k], body[k], body[k + 1..] + rest;
    RunEarlyClose(blocks, address, before, line);
    assert body + rest == before + [line] + remainder;
    RunConcat(Scanner(blocks, Some(address), [], 1), before + [line], remainder);
    BlocksStay(Scanner(blocks + [Block(address, Join("\n", before))], None, [], 0), remainder);
  }

  lemma {:induction false} Misread(blocks: seq<Block>, sites: seq<Site>, after: seq<string>, i: nat)
    requires i < |sites| && !WellFormed(sites[i]) && Separated(sites, after)
    ensures Finish(Run(Scanner(blocks, None, [], 0), RenderAll(sites, after))) != blocks + Expected(sites)
    decreases |sites|
  {
    var first, rest := BlockOf(sites[0]), sites[1..];
    ExpectedStep(blocks, sites);
    SkipAbove(blocks, sites, after);
    if WellFormed(sites[0]) {
      RunFirst(blocks, sites[0], RenderAll(rest, after));
      Misread(blocks + [first], rest, after, i - 1);
    } else {
      MisreadSite(blocks, sites[0], RenderAll(rest, after));
      assert (blocks + Expected(sites))[|blocks|] == first;
    }
  }

  /** Splitting a rendered file, with any lines that open no block before, between and behind its sites, gives back
      exactly its sites, if and only if every address is trimmed and the running depth of every body stays above
      zero. */
  lemma SplitUndoesRender(sites: seq<Site>, after: seq<string>)
    requires Separated(sites, after)
    ensures Blocks(RenderAll(sites, after)) == Expected(sites) <==> forall i :: 0 <= i < |sites| ==> WellFormed(sites[i])
  {
    if forall i :: 0 <= i < |sites| ==> WellFormed(sites[i]) {
      RunSites([], sites, after);
    } else {
      var i :| 0 <= i < |sites| && !WellFormed(sites[i]);
      Misread([], sites, after, i);
      assert [] + Expected(sites) == Expected(sites);
    }
  }

  // ---------- what the depth counts ----------

  lemma {:induction false} CountIsMultiplicity(s: string, c: char)
    ensures Count(s, c) == multiset(s)[c]
  {
    if s != "" {
      CountIsMultiplicity(s[..|s| - 1], c);
      assert s == s[..|s| - 1] + [s[|s| - 1]];
    }
  }

  lemma {:induction false} NoneAmongSpace(s: string, c: char)
    requires AllSpace(s) && !IsSpace(c)
    ensures multiset(s)[c] == 0
  {
    assert c !in s;
  }

  lemma DeltaCountsBraces(line: string)
    ensures Delta(line) + multiset(line)['}'] == multiset(line)['{']
  {
    var before, after := StripDropsSpace(line);
    CountIsMultiplicity(Strip(line), '{');
    CountIsMultiplicity(Strip(line), '}');
    NoneAmongSpace(before, '{');
    NoneAmongSpace(before, '}');
    NoneAmongSpace(after, '{');
    NoneAmongSpace(after, '}');
  }

  /** The depth behind a body is one more than its opening braces exceed its closing ones. */
  lemma {:induction false} DepthCountsBraces(body: seq<string>)
    ensures Depth(body) + multiset(Join("\n", body))['}'] == 1 + multiset(Join("\n", body))['{']
  {
    if |body| == 1 {
      DeltaCountsBraces(body[0]);
      assert body[..0] == [] && Depth(body[..0]) == 1;
    } else if |body| > 1 {
      var n := |body| - 1;
      DepthCountsBraces(body[..n]);
      DeltaCountsBraces(body[n]);
      assert body == body[..n] + [body[n]];
      JoinConcat("\n", body[..n], [body[n]]);
      assert Join("\n", [body[n]]) == body[n];
      BracesAcross(Join("\n", body[..n]), body[n]);
    }
  }

  lemma BracesAcross(a: string, b: string)
    ensures multiset(a + "\n" + b)['{'] == multiset(a)['{'] + multiset(b)['{']
    ensures multiset(a + "\n" + b)['}'] == multiset(a)['}'] + multiset(b)['}']
  {
    assert multiset(a + "\n" + b) == multiset(a) + multiset("\n") + multiset(b);
  }

  // ---------- as text ----------

  predicate NoneBreaks(lines: seq<string>) {
    forall k :: 0 <= k < |lines| ==> NoBreak(lines[k])
  }

  predicate OneLine(site: Site) {
    NoneBreaks(site.above) && NoBreak(site.address) && NoneBreaks(site.body)
  }

  function Written(sites: seq<Site>, after: seq<string>): string {
    Join("\n", RenderAll(sites, after))
  }

  lemma RenderedLines(site: Site)
    requires OneLine(site)
    ensures NoneBreaks(Render(site)) && Render(site)[|Render(site)| - 1] != ""
  {
    var lines := Render(site);
    forall k | 0 <= k < |lines|
      ensures NoBreak(lines[k])
    {
      if 0 < k < |lines| - 1 {
        assert lines[k] == site.body[k - 1];
      }
    }
  }

  lemma NoneBreaksConcat(a: seq<string>, b: seq<string>)
    requires NoneBreaks(a) && NoneBreaks(b)
    ensures NoneBreaks(a + b)
  {
  }

  lemma {:induction false} AllRenderedLines(sites: seq<Site>, after: seq<string>)
    requires NoneBreaks(after) && forall i :: 0 <= i < |sites| ==> OneLine(sites[i])
    ensures NoneBreaks(RenderAll(sites, after))
  {
    if |sites| > 0 {
      var rest := RenderAll(sites[1..], after);
      RenderedLines(sites[0]);
      AllRenderedLines(sites[1..], after);
      NoneBreaksConcat(sites[0].above, Render(sites[0]));
      NoneBreaksConcat(sites[0].above + Render(sites[0]), rest);
    }
  }

  /** `splitlines` does not give the empty line behind a final line feed. */
  function WithoutLastEmpty(lines: seq<string>): seq<string> {
    if |lines| > 0 && lines[|lines| - 1] == "" then lines[..|lines| - 1] else lines
  }

  lemma LinesOfJoin(lines: seq<string>)
    requires NoneBreaks(lines)
    ensures Lines(Join("\n", lines)) == WithoutLastEmpty(lines)
  {
    if |lines| > 0 {
      SplitUndoesJoin(lines);
    }
  }

  lemma {:induction false} LastLineIsBehind(sites: seq<Site>, after: seq<string>)
    requires forall i :: 0 <= i < |sites| ==> OneLine(sites[i])
    ensures WithoutLastEmpty(RenderAll(sites, after)) == RenderAll(sites, WithoutLastEmpty(after))
    ensures |sites| > 0 ==> |RenderAll(sites, after)| > 0
  {
    if |sites| > 0 {
      var head, rest := sites[0].above + Render(sites[0]), RenderAll(sites[1..], after);
      RenderedLines(sites[0]);
      LastLineIsBehind(sites[1..], after);
      DropBehind(head, rest);
    }
  }

  lemma DropBehind(head: seq<string>, rest: seq<string>)
    requires |head| > 0 && head[|head| - 1] != ""
    ensures WithoutLastEmpty(head + rest) == head + WithoutLastEmpty(rest)
  {
    if rest != [] && rest[|rest| - 1] == "" {
      assert (head + rest)[..|head + rest| - 1] == head + rest[..|rest| - 1];
    }
  }

  /** The lines of a rendered file are the lines it was rendered from, but for a last empty one. */
  lemma LinesOfWritten(sites: seq<Site>, after: seq<string>)
    requires NoneBreaks(after) && forall i :: 0 <= i < |sites| ==> OneLine(sites[i])
    ensures Lines(Written(sites, after)) == RenderAll(sites, WithoutLastEmpty(after))
  {
    AllRenderedLines(sites, after);
    LinesOfJoin(RenderAll(sites, after));
    LastLineIsBehind(sites, after);
  }

  // ---------- the scoping check ----------

  const CLIENT_CA_PATH := "/etc/alicebot/client-ca.pem"

  function Upstreams(): seq<string> {
    ["reverse_proxy 127.0.0.1:8000", "reverse_proxy 127.0.0.1:3000"]
  }

  function MtlsDirectives(): seq<string> {
    ["client_auth", "mode require_and_verify", "trust_pool file " + CLIENT_CA_PATH]
  }

  predicate Stands(text: string, needle: string, i: int) {
    0 <= i <= |text| - |needle| && text[i..i + |needle|] == needle
  }

  /** `needle in text`. */
  predicate Contains(text: string, needle: string) {
    exists i :: 0 <= i <= |text| - |needle| && Stands(text, needle, i)
  }

  predicate ContainsAny(text: string, needles: seq<string>) {
    exists k :: 0 <= k < |needles| && Contains(text, needles[k])
  }

  predicate ContainsAll(text: string, needles: seq<string>) {
    forall k :: 0 <= k < |needles| ==> Contains(text, needles[k])
  }

  /** An addressed block that proxies to Alice. */
  predicate Reaches(b: Block, upstreams: seq<string>) {
    b.address != "" && ContainsAny(b.body, upstreams)
  }

  predicate Accepted(blocks: seq<Block>, upstreams: seq<string>, directives: seq<string>) {
    && (exists i :: 0 <= i < |blocks| && Reaches(blocks[i], upstreams))
    && forall i :: 0 <= i < |blocks| && Reaches(blocks[i], upstreams) ==> ContainsAll(blocks[i].body, directives)
  }

  datatype ScopingError = NoUpstream | NoAuthentication | NotFailClosed | NoTrustPool

  /** The error names the first of the three directives that the body lacks. */
  predicate Misses(error: ScopingError, body: string, directives: seq<string>)
    requires |directives| == 3
  {
    match error
    case NoUpstream => false
    case NoAuthentication => !Contains(body, directives[0])
    case NotFailClosed => Contains(body, directives[0]) && !Contains(body, directives[1])
    case NoTrustPool => Contains(body, directives[0]) && Contains(body, directives[1]) && !Contains(body, directives[2])
  }

  method ScopingErrorOf(body: string, directives: seq<string>) returns (error: Option<ScopingError>)
    requires |directives| == 3
    ensures error.None? <==> ContainsAll(body, directives)
    ensures error.Some? ==> Misses(error.value, body, directives)
  {
    if !Contains(body, directives[0]) {
      return Some(NoAuthentication);
    }
    if !Contains(body, directives[1]) {
      return Some(NotFailClosed);
    }
    if !Contains(body, directives[2]) {
      return Some(NoTrustPool);
    }
    return None;
  }

  method CheckBlocks(blocks: seq<Block>, upstreams: seq<string>, directives: seq<string>)
    returns (error: Option<ScopingError>)
    requires |directives| == 3
    ensures error.None? <==> Accepted(blocks, upstreams, directives)
    ensures error == Some(NoUpstream) <==> forall i :: 0 <= i < |blocks| ==> !Reaches(blocks[i], upstreams)
    ensures error.Some? && error != Some(NoUpstream) ==>
              exists i :: && 0 <= i < |blocks| && Reaches(blocks[i], upstreams)
                          && Misses(error.value, blocks[i].body, directives)
                          && forall j :: 0 <= j < i && Reaches(blocks[j], upstreams) ==> ContainsAll(blocks[j].body, directives)
  {
    if forall i :: 0 <= i < |blocks| ==> !Reaches(blocks[i], upstreams) {
      return Some(NoUpstream);
    }
    for i := 0 to |blocks|
      invariant forall j :: 0 <= j < i && Reaches(blocks[j], upstreams) ==> ContainsAll(blocks[j].body, directives)
    {
      if Reaches(blocks[i], upstreams) {
        error := ScopingErrorOf(blocks[i].body, directives);
        if error.Some? {
          assert Misses(error.value, blocks[i].body, directives);
          return;
        }
      }
    }
    return None;
  }

  method ValidateCaddyBlockScoping(text: string) returns (error: Option<ScopingError>)
    ensures error.None? <==> Accepted(Blocks(Lines(text)), Upstreams(), MtlsDirectives())
  {
    var blocks := SiteBlocks(text);
    error := CheckBlocks(blocks, Upstreams(), MtlsDirectives());
  }

  // ---------- directives belong to lines ----------

  predicate InSomeLine(body: seq<string>, needle: string) {
    exists k :: 0 <= k < |body| && Contains(body[k], needle)
  }

  lemma StandsIn(a: string, b: string, needle: string, i: int)
    requires NoBreak(needle) && needle != ""
    ensures Stands(a, needle, i) ==> Stands(a + "\n" + b, needle, i)
    ensures Stands(b, needle, i) ==> Stands(a + "\n" + b, needle, |a| + 1 + i)
    ensures Stands(a + "\n" + b, needle, i) ==> Stands(a, needle, i) || Stands(b, needle, i - |a| - 1)
  {
    var whole, n := a + "\n" + b, |needle|;
    assert whole[|a|] == '\n' && whole[|a| + 1..] == b && whole[..|a|] == a;
    if Stands(a, needle, i) {
      assert whole[i..i + n] == a[i..i + n];
    }
    if Stands(b, needle, i) {
      assert whole[|a| + 1 + i..|a| + 1 + i + n] == b[i..i + n];
    }
    if Stands(whole, needle, i) {
      forall p | i <= p < i + n
        ensures whole[p] != '\n'
      {
        assert whole[p] == whole[i..i + n][p - i];
      }
      assert i + n <= |a| || i > |a|;
      if i + n <= |a| {
        assert whole[i..i + n] == a[i..i + n];
      } else {
        assert whole[i..i + n] == b[i - |a| - 1..i - |a| - 1 + n];
      }
    }
  }

  lemma ContainsEither(a: string, b: string, needle: string)
    requires NoBreak(needle) && needle != ""
    ensures Contains(a + "\n" + b, needle) <==> Contains(a, needle) || Contains(b, needle)
  {
    var whole := a + "\n" + b;
    if Contains(whole, needle) {
      var i :| 0 <= i <= |whole| - |needle| && Stands(whole, needle, i);
      StandsIn(a, b, needle, i);
    }
    if Contains(a, needle) {
      var i :| 0 <= i <= |a| - |needle| && Stands(a, needle, i);
      StandsIn(a, b, needle, i);
    }
    if Contains(b, needle) {
      var i :| 0 <= i <= |b| - |needle| && Stands(b, needle, i);
      StandsIn(a, b, needle, i);
    }
  }

  /** A body holds a directive exactly when one of its lines does: nothing arises across line breaks. */
  lemma {:induction false} BodyContains(body: seq<string>, needle: string)
    requires NoBreak(needle) && needle != ""
    ensures Contains(Join("\n", body), needle) <==> InSomeLine(body, needle)
  {
    if |body| == 1 {
      assert Join("\n", body) == body[0];
    } else if |body| > 1 {
      var rest := body[1..];
      BodyContains(rest, needle);
      ContainsEither(body[0], Join("\n", rest), needle);
      assert body == [body[0]] + rest;
      assert InSomeLine(body, needle) <==> Contains(body[0], needle) || InSomeLine(rest, needle);
    }
  }

  /** The site has a line that proxies to Alice, under an address. */
  predicate ServesAlice(site: Site, upstreams: seq<string>) {
    site.address != "" && exists k :: 0 <= k < |upstreams| && InSomeLine(site.body, upstreams[k])
  }

  predicate DemandsCertificate(site: Site, directives: seq<string>) {
    forall k :: 0 <= k < |directives| ==> InSomeLine(site.body, directives[k])
  }

  predicate Directives(needles: seq<string>) {
    forall k :: 0 <= k < |needles| ==> NoBreak(needles[k]) && needles[k] != ""
  }

  lemma SiteVerdict(site: Site, upstreams: seq<string>, directives: seq<string>)
    requires Directives(upstreams) && Directives(directives)
    ensures Reaches(BlockOf(site), upstreams) <==> ServesAlice(site, upstreams)
    ensures ContainsAll(BlockOf(site).body, directives) <==> DemandsCertificate(site, directives)
  {
    forall k | 0 <= k < |upstreams|
      ensures Contains(BlockOf(site).body, upstreams[k]) <==> InSomeLine(site.body, upstreams[k])
    {
      BodyContains(site.body, upstreams[k]);
    }
    forall k | 0 <= k < |directives|
      ensures Contains(BlockOf(site).body, directives[k]) <==> InSomeLine(site.body, directives[k])
    {
      BodyContains(site.body, directives[k]);
    }
  }

  /** For a file of well-formed sites, whatever lines that open no block stand before, between and behind them, the
      verdict is exact: it is accepted if and only if some site serves Alice and each site that does has every mTLS
      directive among its own lines. */
  lemma ScopingIsExact(sites: seq<Site>, after: seq<string>, upstreams: seq<string>, directives: seq<string>)
    requires Separated(sites, after) && NoneBreaks(after)
    requires forall i :: 0 <= i < |sites| ==> WellFormed(sites[i]) && OneLine(sites[i])
    requires Directives(upstreams) && Directives(directives)
    ensures Accepted(Blocks(Lines(Written(sites, after))), upstreams, directives) <==>
            && (exists i :: 0 <= i < |sites| && ServesAlice(sites[i], upstreams))
            && forall i :: 0 <= i < |sites| && ServesAlice(sites[i], upstreams) ==> DemandsCertificate(sites[i], directives)
  {
    LinesOfWritten(sites, after);
    SplitUndoesRender(sites, WithoutLastEmpty(after));
    var blocks := Expected(sites);
    forall i | 0 <= i < |sites|
      ensures Reaches(blocks[i], upstreams) <==> ServesAlice(sites[i], upstreams)
      ensures ContainsAll(blocks[i].body, directives) <==> DemandsCertificate(sites[i], directives)
    {
      SiteVerdict(sites[i], upstreams, directives);
    }
    VerdictsAgree(sites, blocks, upstreams, directives);
  }

  lemma VerdictsAgree(sites: seq<Site>, blocks: seq<Block>, upstreams: seq<string>, directives: seq<string>)
    requires |blocks| == |sites|
    requires forall i :: 0 <= i < |sites| ==> (Reaches(blocks[i], upstreams) <==> ServesAlice(sites[i], upstreams))
    requires forall i :: 0 <= i < |sites| ==>
               (ContainsAll(blocks[i].body, directives) <==> DemandsCertificate(sites[i], directives))
    ensures Accepted(blocks, upstreams, directives) <==>
            && (exists i :: 0 <= i < |sites| && ServesAlice(sites[i], upstreams))
            && forall i :: 0 <= i < |sites| && ServesAlice(sites[i], upstreams) ==> DemandsCertificate(sites[i], directives)
  {
    if exists i :: 0 <= i < |sites| && ServesAlice(sites[i], upstreams) {
      var i :| 0 <= i < |sites| && ServesAlice(sites[i], upstreams);
      assert Reaches(blocks[i], upstreams);
    }
  }

  /** The strings the check looks for hold no line break, so the above applies to them. */
  lemma SearchedStrings()
    ensures Directives(Upstreams()) && Directives(MtlsDirectives())
  {
    assert NoBreak(CLIENT_CA_PATH);
    assert NoBreak("trust_pool file ");
    assert NoBreak("trust_pool file " + CLIENT_CA_PATH);
  }
}
