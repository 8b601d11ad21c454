/** The query-anchored excerpt window: a session's chunks become one stream of lines, a window is
    grown around the first best-scoring line under a character cap, and the enumerated run the
    window cuts is offered as a downward and an upward continuation. */
module Anchor {
  import opened Text
  import opened Wrappers

  const ANCHOR_MIN_SCORE := 3
  const ANCHOR_EXTENSION_MAX_CHARS := 1600

  /** What the regular expressions and the case folding say about a text, for one question.
      A question without terms scores every line 0. */
  datatype Query = Query(
    lineScore: string -> nat,                    // weighted term overlap of one line
    chunkScore: string -> nat,                   // plain term overlap of one chunk
    enumerated: string -> bool,                  // numbering at the head of a line, or dense numbering in it
    matches: string -> seq<(nat, nat)>)          // spans of the term matches, in order

  datatype Chunk = Chunk(index: int, text: string)

  datatype Line = Line(chunk: int, text: string)

  datatype Anchored = Anchored(
    chunkIndex: int,
    text: string,
    extensionText: string,
    upwardText: string,
    covered: set<int>,
    extensionChunks: set<int>,
    upwardChunks: set<int>)

  // ---------- the line stream ----------

  function TagLines(chunk: int, texts: seq<string>): (r: seq<Line>)
    ensures |r| == |texts|
  {
    seq(|texts|, i requires 0 <= i < |texts| => Line(chunk, texts[i]))
  }

  /** All chunks in session order, one blank seam line between neighbours, tagged like the chunk it precedes. */
  function Stream(chunks: seq<Chunk>): seq<Line> {
    if |chunks| == 0 then []
    else
      var c := chunks[|chunks| - 1];
      Stream(chunks[..|chunks| - 1])
      + (if |chunks| == 1 then [] else [Line(c.index, "")])
      + TagLines(c.index, Split(c.text))
  }

  function Texts(lines: seq<Line>): (r: seq<string>)
    ensures |r| == |lines|
  {
    seq(|lines|, i requires 0 <= i < |lines| => lines[i].text)
  }

  /** The lines a, ..., b - 1 joined by newlines. */
  function RunText(lines: seq<Line>, a: nat, b: nat): string
    requires a <= b <= |lines|
  {
    Join("\n", Texts(lines)[a..b])
  }

  /** Their characters, each line counted with one separator. */
  function RunCost(lines: seq<Line>, a: nat, b: nat): nat
    requires a <= b <= |lines|
  {
    LineCost(Texts(lines)[a..b])
  }

  function RunChunks(lines: seq<Line>, a: nat, b: nat): set<int>
    requires a <= b <= |lines|
  {
    set i | a <= i < b :: lines[i].chunk
  }

  // ---------- chunks inside the stream ----------

  /** Chunk k's own lines are the stream positions [BodyStart, BodyEnd); the seam before it is not among them. */
  function BodyStart(chunks: seq<Chunk>, k: nat): nat
    requires k < |chunks|
  {
    |Stream(chunks[..k])| + (if k == 0 then 0 else 1)
  }

  function BodyEnd(chunks: seq<Chunk>, k: nat): nat
    requires k < |chunks|
  {
    |Stream(chunks[..k + 1])|
  }

  // ---------- the anchor line ----------

  /** The line the scan of the first n lines has kept, or -1. */
  function Best(q: Query, lines: seq<Line>, n: nat): (b: int)
    requires n <= |lines|
    ensures -1 <= b < n
  {
    if n == 0 then -1
    else
      var b := Best(q, lines, n - 1);
      if ScoreAt(q, lines, b) < q.lineScore(lines[n - 1].text) then n - 1 else b
  }

  function ScoreAt(q: Query, lines: seq<Line>, b: int): nat
    requires -1 <= b < |lines|
  {
    if b < 0 then 0 else q.lineScore(lines[b].text)
  }

  predicate EnumeratedNear(q: Query, lines: seq<Line>, best: nat) {
    exists i :: (if best >= 3 then best - 3 else 0) <= i < best + 4 && i < |lines| && q.enumerated(lines[i].text)
  }

  /** The text length at which the window's entry costs as much as the baseline's. */
  function Cap(baselineIndex: int, baselineText: string, anchorChunk: int): int {
    |baselineText| + |Str(baselineIndex + 1)| - |Str(anchorChunk + 1)|
  }

  // ---------- growing the window ----------

  datatype Growth = Growth(low: nat, high: nat, above: nat, below: nat, length: nat)

  predicate CanUp(lines: seq<Line>, cap: int, g: Growth) {
    0 < g.low <= |lines| && g.length + |lines[g.low - 1].text| + 1 <= cap
  }

  predicate CanDown(lines: seq<Line>, cap: int, g: Growth) {
    g.high + 1 < |lines| && g.length + |lines[g.high + 1].text| + 1 <= cap
  }

  function StepDown(lines: seq<Line>, g: Growth): Growth
    requires g.high + 1 < |lines|
  {
    var cost := |lines[g.high + 1].text| + 1;
    g.(high := g.high + 1, below := g.below + cost, length := g.length + cost)
  }

  function StepUp(lines: seq<Line>, g: Growth): Growth
    requires 0 < g.low <= |lines|
  {
    var cost := |lines[g.low - 1].text| + 1;
    g.(low := g.low - 1, above := g.above + cost, length := g.length + cost)
  }

  /** One line at a time to the lighter side, down on a tie, until neither neighbour fits. */
  function Grow(lines: seq<Line>, cap: int, g: Growth): (r: Growth)
    requires g.high < |lines|
    ensures r.low <= g.low && g.high <= r.high < |lines|
    decreases g.low + |lines| - g.high
  {
    if CanDown(lines, cap, g) && (!CanUp(lines, cap, g) || g.below <= g.above) then
      Grow(lines, cap, StepDown(lines, g))
    else if CanUp(lines, cap, g) then
      Grow(lines, cap, StepUp(lines, g))
    else
      g
  }

  function Start(lines: seq<Line>, best: nat): Growth
    requires best < |lines|
  {
    Growth(best, best, 0, 0, |lines[best].text|)
  }

  function TrimLow(lines: seq<Line>, low: nat, best: nat): nat
    requires low <= best < |lines|
    decreases best - low
  {
    if low < best && lines[low].text == "" then TrimLow(lines, low + 1, best) else low
  }

  function TrimHigh(lines: seq<Line>, high: nat, best: nat): nat
    requires best <= high < |lines|
  {
    if high > best && lines[high].text == "" then TrimHigh(lines, high - 1, best) else high
  }

  // ---------- the overlong line ----------

  /** Where the slice of an overlong line starts. Python's `//` on these non-negative numbers is `/`. */
  function TrimStart(q: Query, line: string, maxChars: nat): nat
    requires maxChars < |line|
  {
    var spans := q.matches(line);
    if |spans| == 0 then 0
    else
      var center := (spans[0].0 + spans[|spans| - 1].1) / 2;
      Clamp(center - maxChars / 2, |line| - maxChars)
  }

  function Clamp(x: int, top: nat): nat {
    if (if x < top then x else top) < 0 then 0 else if x < top then x else top
  }

  function TrimLine(q: Query, line: string, maxChars: nat): (r: string)
    requires maxChars < |line|
    ensures |r| == maxChars
  {
    line[TrimStart(q, line, maxChars)..TrimStart(q, line, maxChars) + maxChars]
  }

  // ---------- continuations ----------

  /** End of the enumerated run from line `at` that fits in what is left of the extension cap. */
  function ExtendDown(q: Query, lines: seq<Line>, at: nat, used: nat): nat
    requires at <= |lines|
    decreases |lines| - at
  {
    if at < |lines| && q.enumerated(lines[at].text) && used + |lines[at].text| + 1 <= ANCHOR_EXTENSION_MAX_CHARS
    then ExtendDown(q, lines, at + 1, used + |lines[at].text| + 1)
    else at
  }

  function ExtendUp(q: Query, lines: seq<Line>, at: nat, used: nat): nat
    requires at <= |lines|
  {
    if at > 0 && q.enumerated(lines[at - 1].text) && used + |lines[at - 1].text| + 1 <= ANCHOR_EXTENSION_MAX_CHARS
    then ExtendUp(q, lines, at - 1, used + |lines[at - 1].text| + 1)
    else at
  }

  // ---------- the whole window ----------

  /** Line positions of an anchored excerpt: the window [low, high), the lines [top, low) above it and
      [high, bottom) below it; `sliced` when the window is a slice of the one line `best`. */
  datatype Plan = Plan(best: nat, cap: nat, sliced: bool, top: nat, low: nat, high: nat, bottom: nat)

  function WindowPlan(q: Query, lines: seq<Line>, best: nat, cap: nat): Plan
    requires best < |lines|
  {
    var sliced := |lines[best].text| > cap;
    var g := Grow(lines, cap, Start(lines, best));
    var low := if sliced then best else TrimLow(lines, g.low, best);
    var high := if sliced then best else TrimHigh(lines, g.high, best);
    TrimLowRange(lines, g.low, best);
    TrimHighRange(lines, g.high, best);
    Plan(best, cap, sliced,
         if low > 0 && q.enumerated(lines[low].text) then ExtendUp(q, lines, low, 0) else low,
         low, high + 1,
         if q.enumerated(lines[high].text) then ExtendDown(q, lines, high + 1, 0) else high + 1)
  }

  predicate PlanFits(p: Plan, lines: seq<Line>) {
    p.top <= p.low <= p.best < p.high <= p.bottom <= |lines| && (p.sliced ==> p.cap < |lines[p.best].text|)
  }

  function PlanText(q: Query, lines: seq<Line>, p: Plan): string
    requires PlanFits(p, lines)
  {
    if p.sliced then TrimLine(q, lines[p.best].text, p.cap) else RunText(lines, p.low, p.high)
  }

  function PlanExcerpt(q: Query, lines: seq<Line>, p: Plan): Anchored
    requires PlanFits(p, lines)
  {
    Anchored(lines[p.best].chunk, PlanText(q, lines, p),
             RunText(lines, p.high, p.bottom), RunText(lines, p.top, p.low),
             RunChunks(lines, p.low, p.high), RunChunks(lines, p.high, p.bottom), RunChunks(lines, p.top, p.low))
  }

  /** The plan, when the guards before the window is cut let anchoring through. */
  function AnchorPlan(q: Query, ordered: seq<Chunk>, baselineIndex: int, baselineText: string): (r: Option<Plan>)
    ensures r.Some? ==> PlanFits(r.value, Stream(ordered))
  {
    var lines := Stream(ordered);
    var best := Best(q, lines, |lines|);
    if |ordered| < 2 || ScoreAt(q, lines, best) < ANCHOR_MIN_SCORE || !EnumeratedNear(q, lines, best) then None
    else
      var cap := Cap(baselineIndex, baselineText, lines[best].chunk);
      if cap <= 0 then None
      else
        PlanIsInRange(q, lines, best, cap);
        Some(WindowPlan(q, lines, best, cap))
  }

  function AnchoredExcerpt(q: Query, ordered: seq<Chunk>, baselineIndex: int, baselineText: string): Option<Anchored> {
    match AnchorPlan(q, ordered, baselineIndex, baselineText)
    case None => None
    case Some(p) =>
      var a := PlanExcerpt(q, Stream(ordered), p);
      if a.text == baselineText && a.extensionText == "" && a.upwardText == "" then None else Some(a)
  }

  // ---------- when anchoring fires ----------

  ghost predicate FirstMaximal(q: Query, lines: seq<Line>, best: nat)
    requires best < |lines|
  {
    && (forall j :: 0 <= j < |lines| ==> q.lineScore(lines[j].text) <= q.lineScore(lines[best].text))
    && (forall j :: 0 <= j < best ==> q.lineScore(lines[j].text) < q.lineScore(lines[best].text))
  }

  /** The kept line scores at least as much as every line and more than every earlier one. */
  lemma {:induction false} BestIsFirstMaximal(q: Query, lines: seq<Line>, n: nat)
    requires n <= |lines|
    ensures forall j :: 0 <= j < n ==> q.lineScore(lines[j].text) <= ScoreAt(q, lines, Best(q, lines, n))
    ensures forall j :: 0 <= j < Best(q, lines, n) ==>
              q.lineScore(lines[j].text) < ScoreAt(q, lines, Best(q, lines, n))
  {
    if n > 0 {
      BestIsFirstMaximal(q, lines, n - 1);
    }
  }

  lemma {:induction false} FirstMaximalIsUnique(q: Query, lines: seq<Line>, a: nat, b: nat)
    requires a < |lines| && b < |lines| && FirstMaximal(q, lines, a) && FirstMaximal(q, lines, b)
    ensures a == b
  {
    var first, second := q.lineScore(lines[a].text), q.lineScore(lines[b].text);
    assert first == second;
  }

  lemma {:induction false} KeptLine(q: Query, lines: seq<Line>, best: nat)
    requires best < |lines| && FirstMaximal(q, lines, best) && q.lineScore(lines[best].text) > 0
    ensures Best(q, lines, |lines|) == best
  {
    BestIsFirstMaximal(q, lines, |lines|);
    var kept := Best(q, lines, |lines|);
    assert kept >= 0;
    FirstMaximalIsUnique(q, lines, kept, best);
  }

  lemma {:induction false} KeptIsFirstMaximal(q: Query, lines: seq<Line>)
    requires Best(q, lines, |lines|) >= 0
    ensures FirstMaximal(q, lines, Best(q, lines, |lines|))
  {
    BestIsFirstMaximal(q, lines, |lines|);
  }

  /** The line is the first of those that score highest, scores at least 3, and has a numbered line at most three
      lines away; the session has several chunks, and the baseline with its ordinal is longer than the line's
      ordinal alone. */
  ghost predicate Warranted(q: Query, ordered: seq<Chunk>, baselineIndex: int, baselineText: string, best: nat) {
    var lines := Stream(ordered);
    && |ordered| >= 2
    && best < |lines| && FirstMaximal(q, lines, best) && q.lineScore(lines[best].text) >= 3
    && (exists i :: 0 <= i < |lines| && best - 3 <= i <= best + 3 && q.enumerated(lines[i].text))
    && |baselineText| + |Str(baselineIndex + 1)| > |Str(lines[best].chunk + 1)|
  }

  /** The excerpt cut around line `best`: its window, and the lines that continue it. */
  ghost predicate CutAround(q: Query, lines: seq<Line>, best: nat, cap: int, a: Anchored)
    requires best < |lines|
  {
    && cap > 0 && PlanFits(WindowPlan(q, lines, best, cap), lines)
    && var p := WindowPlan(q, lines, best, cap);
    && a.chunkIndex == lines[best].chunk && a.text == PlanText(q, lines, p)
    && a.extensionText == RunText(lines, p.high, p.bottom) && a.upwardText == RunText(lines, p.top, p.low)
    && a.covered == RunChunks(lines, p.low, p.high)
    && a.extensionChunks == RunChunks(lines, p.high, p.bottom) && a.upwardChunks == RunChunks(lines, p.top, p.low)
  }

  predicate Changes(baselineText: string, a: Anchored) {
    a.text != baselineText || a.extensionText != "" || a.upwardText != ""
  }

  /** Such an excerpt, different from showing just the baseline. */
  ghost predicate AnchorsAt(q: Query, ordered: seq<Chunk>, baselineIndex: int, baselineText: string, best: nat, a: Anchored) {
    && Warranted(q, ordered, baselineIndex, baselineText, best)
    && CutAround(q, Stream(ordered), best, Room(Stream(ordered), baselineIndex, baselineText, best), a)
    && Changes(baselineText, a)
  }

  /** The result is the excerpt that anchors, and None exactly if there is none. */
  ghost predicate AnchorsExactly(q: Query, ordered: seq<Chunk>, baselineIndex: int, baselineText: string, r: Option<Anchored>) {
    forall a :: r == Some(a) <==> exists best :: AnchorsAt(q, ordered, baselineIndex, baselineText, best, a)
  }

  /** How many characters the window may have. */
  function Room(lines: seq<Line>, baselineIndex: int, baselineText: string, best: nat): int
    requires best < |lines|
  {
    |baselineText| + |Str(baselineIndex + 1)| - |Str(lines[best].chunk + 1)|
  }

  lemma {:induction false} CutIsPlanned(q: Query, lines: seq<Line>, best: nat, cap: nat, a: Anchored)
    requires best < |lines| && cap > 0
    ensures PlanFits(WindowPlan(q, lines, best, cap), lines)
    ensures CutAround(q, lines, best, cap, a) <==> a == PlanExcerpt(q, lines, WindowPlan(q, lines, best, cap))
  {
    PlanIsInRange(q, lines, best, cap);
  }

  lemma {:induction false} NearWithinThree(q: Query, lines: seq<Line>, best: nat)
    requires best < |lines|
    ensures EnumeratedNear(q, lines, best)
       <==> exists i :: 0 <= i < |lines| && best - 3 <= i <= best + 3 && q.enumerated(lines[i].text)
  {
  }

  lemma {:induction false} GuardsPass(q: Query, ordered: seq<Chunk>, baselineIndex: int, baselineText: string, lines: seq<Line>, best: nat)
    requires lines == Stream(ordered) && |ordered| >= 2 && best < |lines| && Best(q, lines, |lines|) == best
    requires q.lineScore(lines[best].text) >= 3 && EnumeratedNear(q, lines, best)
    requires Room(lines, baselineIndex, baselineText, best) > 0
    ensures AnchorPlan(q, ordered, baselineIndex, baselineText)
         == Some(WindowPlan(q, lines, best, Room(lines, baselineIndex, baselineText, best)))
  {
  }

  lemma {:induction false} WarrantedHasPlan(q: Query, ordered: seq<Chunk>, baselineIndex: int, baselineText: string, best: nat)
    requires Warranted(q, ordered, baselineIndex, baselineText, best)
    ensures var lines := Stream(ordered);
            var room := Room(lines, baselineIndex, baselineText, best);
            room > 0 && AnchorPlan(q, ordered, baselineIndex, baselineText) == Some(WindowPlan(q, lines, best, room))
  {
    KeptLine(q, Stream(ordered), best);
    NearWithinThree(q, Stream(ordered), best);
    GuardsPass(q, ordered, baselineIndex, baselineText, Stream(ordered), best);
  }

  lemma {:induction false} PlanIsWarranted(q: Query, ordered: seq<Chunk>, baselineIndex: int, baselineText: string, p: Plan)
    requires AnchorPlan(q, ordered, baselineIndex, baselineText) == Some(p)
    ensures Warranted(q, ordered, baselineIndex, baselineText, p.best)
  {
    KeptIsFirstMaximal(q, Stream(ordered));
    NearWithinThree(q, Stream(ordered), p.best);
  }

  lemma {:induction false} ExcerptOfPlan(q: Query, ordered: seq<Chunk>, baselineIndex: int, baselineText: string, p: Plan, a: Anchored)
    requires AnchorPlan(q, ordered, baselineIndex, baselineText) == Some(p)
    ensures AnchoredExcerpt(q, ordered, baselineIndex, baselineText) == Some(a)
       <==> a == PlanExcerpt(q, Stream(ordered), p) && Changes(baselineText, a)
  {
  }

  lemma {:induction false} PlanOfWarranted(q: Query, ordered: seq<Chunk>, baselineIndex: int, baselineText: string, p: Plan)
    requires AnchorPlan(q, ordered, baselineIndex, baselineText) == Some(p)
    ensures var lines := Stream(ordered);
            && p.best < |lines| && Room(lines, baselineIndex, baselineText, p.best) > 0
            && p == WindowPlan(q, lines, p.best, Room(lines, baselineIndex, baselineText, p.best))
  {
  }

  lemma {:induction false} ExcerptIsAnchored(q: Query, ordered: seq<Chunk>, baselineIndex: int, baselineText: string, a: Anchored)
    requires AnchoredExcerpt(q, ordered, baselineIndex, baselineText) == Some(a)
    ensures exists best :: AnchorsAt(q, ordered, baselineIndex, baselineText, best, a)
  {
    var p := AnchorPlan(q, ordered, baselineIndex, baselineText).value;
    PlanIsWarranted(q, ordered, baselineIndex, baselineText, p);
    PlanOfWarranted(q, ordered, baselineIndex, baselineText, p);
    ExcerptOfPlan(q, ordered, baselineIndex, baselineText, p, a);
    CutIsPlanned(q, Stream(ordered), p.best, Room(Stream(ordered), baselineIndex, baselineText, p.best), a);
    assert AnchorsAt(q, ordered, baselineIndex, baselineText, p.best, a);
  }

  lemma {:induction false} AnchoredIsExcerpt(q: Query, ordered: seq<Chunk>, baselineIndex: int, baselineText: string, best: nat, a: Anchored)
    requires AnchorsAt(q, ordered, baselineIndex, baselineText, best, a)
    ensures AnchoredExcerpt(q, ordered, baselineIndex, baselineText) == Some(a)
  {
    WarrantedHasPlan(q, ordered, baselineIndex, baselineText, best);
    var room := Room(Stream(ordered), baselineIndex, baselineText, best);
    CutIsPlanned(q, Stream(ordered), best, room, a);
    ExcerptOfPlan(q, ordered, baselineIndex, baselineText, WindowPlan(q, Stream(ordered), best, room), a);
  }

  /** An excerpt is anchored exactly where that is warranted and changes something, and it is that excerpt. */
  lemma {:induction false} AnchoringFires(q: Query, ordered: seq<Chunk>, baselineIndex: int, baselineText: string, a: Anchored)
    ensures AnchoredExcerpt(q, ordered, baselineIndex, baselineText) == Some(a)
       <==> exists best :: AnchorsAt(q, ordered, baselineIndex, baselineText, best, a)
  {
    if AnchoredExcerpt(q, ordered, baselineIndex, baselineText) == Some(a) {
      ExcerptIsAnchored(q, ordered, baselineIndex, baselineText, a);
    }
    forall best | AnchorsAt(q, ordered, baselineIndex, baselineText, best, a)
      ensures AnchoredExcerpt(q, ordered, baselineIndex, baselineText) == Some(a)
    {
      AnchoredIsExcerpt(q, ordered, baselineIndex, baselineText, best, a);
    }
  }

  // ---------- the code ----------

  method FlattenChunks(ordered: seq<Chunk>) returns (lines: seq<Line>)
    ensures lines == Stream(ordered)
  {
    lines := [];
    for position := 0 to |ordered|
      invariant lines == Stream(ordered[..position])
    {
      var c := ordered[position];
      assert ordered[..position + 1][..position] == ordered[..position];
      if position > 0 {
        lines := lines + [Line(c.index, "")];
      }
      var texts := Split(c.text);
      ghost var before := lines;
      for i := 0 to |texts|
        invariant lines == before + TagLines(c.index, texts)[..i]
      {
        lines := lines + [Line(c.index, texts[i])];
      }
    }
    assert ordered[..|ordered|] == ordered;
  }

  method QueryAnchoredExcerpt(q: Query, ordered: seq<Chunk>, baselineIndex: int, baselineText: string)
    returns (r: Option<Anchored>)
    ensures r == AnchoredExcerpt(q, ordered, baselineIndex, baselineText)
    ensures AnchorsExactly(q, ordered, baselineIndex, baselineText, r)
  {
    r := ExcerptAround(q, ordered, baselineIndex, baselineText);
    forall a
      ensures r == Some(a) <==> exists best :: AnchorsAt(q, ordered, baselineIndex, baselineText, best, a)
    {
      AnchoringFires(q, ordered, baselineIndex, baselineText, a);
    }
  }

  method ExcerptAround(q: Query, ordered: seq<Chunk>, baselineIndex: int, baselineText: string)
    returns (r: Option<Anchored>)
    ensures r == AnchoredExcerpt(q, ordered, baselineIndex, baselineText)
  {
    if |ordered| < 2 {
      return None;
    }
    var lines := FlattenChunks(ordered);
    var best, bestScore := ScanLines(q, lines);
    if bestScore < ANCHOR_MIN_SCORE {
      return None;
    }
    var shaped := ScanShape(q, lines, best);
    if !shaped {
      return None;
    }
    var anchorChunk := lines[best].chunk;
    var cap := Cap(baselineIndex, baselineText, anchorChunk);
    if cap <= 0 {
      return None;
    }
    PlanIsInRange(q, lines, best, cap);
    ghost var p := WindowPlan(q, lines, best, cap);
    assert AnchorPlan(q, ordered, baselineIndex, baselineText) == Some(p);
    r := CutExcerpt(q, lines, best, cap);
    if r.value.text == baselineText && r.value.extensionText == "" && r.value.upwardText == "" {
      r := None;
    }
  }

  method CutExcerpt(q: Query, lines: seq<Line>, best: nat, cap: nat) returns (r: Option<Anchored>)
    requires best < |lines| && PlanFits(WindowPlan(q, lines, best, cap), lines)
    ensures r == Some(PlanExcerpt(q, lines, WindowPlan(q, lines, best, cap)))
  {
    var low, high, windowText := CutWindow(q, lines, best, cap);
    var top, bottom := ContinueRun(q, lines, best, cap, low, high);
    r := Some(Anchored(lines[best].chunk, windowText,
                       RunText(lines, high + 1, bottom), RunText(lines, top, low),
                       RunChunks(lines, low, high + 1), RunChunks(lines, high + 1, bottom),
                       RunChunks(lines, top, low)));
  }

  method ScanLines(q: Query, lines: seq<Line>) returns (best: int, bestScore: nat)
    ensures best == Best(q, lines, |lines|) && bestScore == ScoreAt(q, lines, best)
  {
    best, bestScore := -1, 0;
    for index := 0 to |lines|
      invariant best == Best(q, lines, index) && bestScore == ScoreAt(q, lines, best)
    {
      var score := q.lineScore(lines[index].text);
      if score > bestScore {
        best, bestScore := index, score;
      }
    }
  }

  method ScanShape(q: Query, lines: seq<Line>, best: nat) returns (shaped: bool)
    requires best < |lines|
    ensures shaped == EnumeratedNear(q, lines, best)
  {
    var from := if best >= 3 then best - 3 else 0;
    shaped := false;
    for index := from to (if best + 4 < |lines| then best + 4 else |lines|)
      invariant shaped <==> exists i :: from <= i < index && q.enumerated(lines[i].text)
    {
      if q.enumerated(lines[index].text) {
        shaped := true;
      }
    }
  }

  method CutWindow(q: Query, lines: seq<Line>, best: nat, cap: nat)
    returns (low: nat, high: nat, windowText: string)
    requires best < |lines| && PlanFits(WindowPlan(q, lines, best, cap), lines)
    ensures var p := WindowPlan(q, lines, best, cap);
            low == p.low && high + 1 == p.high && windowText == PlanText(q, lines, p)
  {
    ghost var p := WindowPlan(q, lines, best, cap);
    low, high := best, best;
    if |lines[best].text| > cap {
      windowText := TrimLine(q, lines[best].text, cap);
    } else {
      low, high := GrowWindow(lines, best, cap);
      while low < best && lines[low].text == ""
        invariant low <= best && TrimLow(lines, low, best) == p.low
      {
        low := low + 1;
      }
      while high > best && lines[high].text == ""
        invariant best <= high < |lines| && TrimHigh(lines, high, best) + 1 == p.high
      {
        high := high - 1;
      }
      windowText := Join("\n", Texts(lines)[low..high + 1]);
    }
  }

  method GrowWindow(lines: seq<Line>, best: nat, cap: nat) returns (low: nat, high: nat)
    requires best < |lines|
    ensures low == Grow(lines, cap, Start(lines, best)).low
    ensures high == Grow(lines, cap, Start(lines, best)).high
    ensures low <= best <= high < |lines|
  {
    low, high := best, best;
    var length: nat := |lines[best].text|;
    var above: nat, below: nat := 0, 0;
    while true
      invariant low <= best <= high < |lines|
      invariant Grow(lines, cap, Growth(low, high, above, below, length)) == Grow(lines, cap, Start(lines, best))
      decreases low + |lines| - high
    {
      var canUp := low > 0 && length + |lines[low - 1].text| + 1 <= cap;
      var canDown := high + 1 < |lines| && length + |lines[high + 1].text| + 1 <= cap;
      if canDown && (!canUp || below <= above) {
        high := high + 1;
        below := below + |lines[high].text| + 1;
        length := length + |lines[high].text| + 1;
      } else if canUp {
        low := low - 1;
        above := above + |lines[low].text| + 1;
        length := length + |lines[low].text| + 1;
      } else {
        break;
      }
    }
  }

  method ContinueRun(q: Query, lines: seq<Line>, best: nat, cap: nat, low: nat, high: nat)
    returns (top: nat, bottom: nat)
    requires best < |lines| && PlanFits(WindowPlan(q, lines, best, cap), lines)
    requires low == WindowPlan(q, lines, best, cap).low && high + 1 == WindowPlan(q, lines, best, cap).high
    ensures top == WindowPlan(q, lines, best, cap).top && bottom == WindowPlan(q, lines, best, cap).bottom
  {
    ghost var p := WindowPlan(q, lines, best, cap);
    bottom := high + 1;
    if q.enumerated(lines[high].text) {
      var used: nat := 0;
      while bottom < |lines| && q.enumerated(lines[bottom].text)
            && used + |lines[bottom].text| + 1 <= ANCHOR_EXTENSION_MAX_CHARS
        invariant bottom <= |lines| && ExtendDown(q, lines, bottom, used) == p.bottom
      {
        used := used + |lines[bottom].text| + 1;
        bottom := bottom + 1;
      }
    }
    top := low;
    if low > 0 && q.enumerated(lines[low].text) {
      var used: nat := 0;
      while top > 0 && q.enumerated(lines[top - 1].text)
            && used + |lines[top - 1].text| + 1 <= ANCHOR_EXTENSION_MAX_CHARS
        invariant top <= low && ExtendUp(q, lines, top, used) == p.top
      {
        used := used + |lines[top - 1].text| + 1;
        top := top - 1;
      }
    }
  }

  // ---------- where the window lies ----------

  lemma RunGrowsDown(lines: seq<Line>, a: nat, b: nat)
    requires a <= b < |lines|
    ensures RunCost(lines, a, b + 1) == RunCost(lines, a, b) + |lines[b].text| + 1
  {
    var run := Texts(lines)[a..b + 1];
    assert run[..|run| - 1] == Texts(lines)[a..b];
  }

  lemma RunGrowsUp(lines: seq<Line>, a: nat, b: nat)
    requires 0 < a <= b <= |lines|
    ensures RunCost(lines, a - 1, b) == RunCost(lines, a, b) + |lines[a - 1].text| + 1
  {
    var head := Texts(lines)[a - 1..a];
    assert Texts(lines)[a - 1..b] == head + Texts(lines)[a..b];
    LineCostConcat(head, Texts(lines)[a..b]);
    assert head[..0] == [];
    assert LineCost(head) == |lines[a - 1].text| + 1;
  }

  /** Trimming drops blank lines only, and stops at a line that is not blank or at the anchor. */
  lemma {:induction false} TrimLowRange(lines: seq<Line>, low: nat, best: nat)
    requires low <= best < |lines|
    ensures low <= TrimLow(lines, low, best) <= best
    ensures forall i :: low <= i < TrimLow(lines, low, best) ==> lines[i].text == ""
    ensures TrimLow(lines, low, best) == best || lines[TrimLow(lines, low, best)].text != ""
    decreases best - low
  {
    if low < best && lines[low].text == "" {
      TrimLowRange(lines, low + 1, best);
    }
  }

  lemma {:induction false} TrimHighRange(lines: seq<Line>, high: nat, best: nat)
    requires best <= high < |lines|
    ensures best <= TrimHigh(lines, high, best) <= high
    ensures forall i :: TrimHigh(lines, high, best) < i <= high ==> lines[i].text == ""
    ensures TrimHigh(lines, high, best) == best || lines[TrimHigh(lines, high, best)].text != ""
  {
    if high > best && lines[high].text == "" {
      TrimHighRange(lines, high - 1, best);
    }
  }

  /** A continuation is the longest enumerated run that fits: it ends at a line without numbering,
      at the end of the session, or at a line that would overflow the extension cap. */
  lemma {:induction false} ExtendDownIsMaximal(q: Query, lines: seq<Line>, at: nat, used: nat)
    requires at <= |lines| && used <= ANCHOR_EXTENSION_MAX_CHARS
    ensures at <= ExtendDown(q, lines, at, used) <= |lines|
    ensures var e := ExtendDown(q, lines, at, used);
            && (forall i :: at <= i < e ==> q.enumerated(lines[i].text))
            && used + RunCost(lines, at, e) <= ANCHOR_EXTENSION_MAX_CHARS
            && (|| e == |lines|
                || !q.enumerated(lines[e].text)
                || used + RunCost(lines, at, e) + |lines[e].text| + 1 > ANCHOR_EXTENSION_MAX_CHARS)
    decreases |lines| - at
  {
    assert Texts(lines)[at..at] == [];
    if at < |lines| && q.enumerated(lines[at].text) && used + |lines[at].text| + 1 <= ANCHOR_EXTENSION_MAX_CHARS {
      ExtendDownIsMaximal(q, lines, at + 1, used + |lines[at].text| + 1);
      RunGrowsUp(lines, at + 1, ExtendDown(q, lines, at, used));
    }
  }

  lemma {:induction false} ExtendUpIsMaximal(q: Query, lines: seq<Line>, at: nat, used: nat)
    requires at <= |lines| && used <= ANCHOR_EXTENSION_MAX_CHARS
    ensures ExtendUp(q, lines, at, used) <= at
    ensures var e := ExtendUp(q, lines, at, used);
            && (forall i :: e <= i < at ==> q.enumerated(lines[i].text))
            && used + RunCost(lines, e, at) <= ANCHOR_EXTENSION_MAX_CHARS
            && (|| e == 0
                || !q.enumerated(lines[e - 1].text)
                || used + RunCost(lines, e, at) + |lines[e - 1].text| + 1 > ANCHOR_EXTENSION_MAX_CHARS)
  {
    assert Texts(lines)[at..at] == [];
    if at > 0 && q.enumerated(lines[at - 1].text) && used + |lines[at - 1].text| + 1 <= ANCHOR_EXTENSION_MAX_CHARS {
      ExtendUpIsMaximal(q, lines, at - 1, used + |lines[at - 1].text| + 1);
      RunGrowsDown(lines, ExtendUp(q, lines, at, used), at - 1);
    }
  }

  lemma PlanIsInRange(q: Query, lines: seq<Line>, best: nat, cap: nat)
    requires best < |lines|
    ensures PlanFits(WindowPlan(q, lines, best, cap), lines)
  {
    var g := Grow(lines, cap, Start(lines, best));
    TrimLowRange(lines, g.low, best);
    TrimHighRange(lines, g.high, best);
    var p := WindowPlan(q, lines, best, cap);
    ExtendDownIsMaximal(q, lines, p.high, 0);
    ExtendUpIsMaximal(q, lines, p.low, 0);
  }
}
