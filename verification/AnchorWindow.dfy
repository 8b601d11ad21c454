/** What the anchored window and its continuations are: a maximal run around the first best line, and maximal
    runs of enumerated lines next to it. */
module AnchorWindow {
  import opened Text
  import opened Anchor
  import opened Wrappers

  // ---------- the anchor line and the growth ----------

  lemma RunLength(lines: seq<Line>, a: nat, b: nat)
    requires a < b <= |lines|
    ensures |RunText(lines, a, b)| == RunCost(lines, a, b) - 1
  {
    JoinLength('\n', Texts(lines)[a..b]);
  }

  /** What every step of the growth keeps. The last two clauses are the lighter-side rule: the last
      line taken on a side was taken because that side was not the heavier one, or because the other
      side's neighbour was out of reach. */
  ghost predicate GrowthInv(lines: seq<Line>, cap: int, best: nat, g: Growth) {
    && g.low <= best <= g.high < |lines|
    && g.above == RunCost(lines, g.low, best)
    && g.below == RunCost(lines, best + 1, g.high + 1)
    && g.length == RunCost(lines, g.low, g.high + 1) - 1
    && g.length == |lines[best].text| + g.above + g.below
    && g.length <= cap
    && (g.high > best ==>
          var last := |lines[g.high].text| + 1;
          || g.below - last <= g.above
          || g.low == 0
          || g.length - last + |lines[g.low - 1].text| + 1 > cap)
    && (g.low < best ==>
          var last := |lines[g.low].text| + 1;
          || g.above - last < g.below
          || g.high + 1 == |lines|
          || g.length - last + |lines[g.high + 1].text| + 1 > cap)
  }

  lemma StartInv(lines: seq<Line>, cap: int, best: nat)
    requires best < |lines| && |lines[best].text| <= cap
    ensures GrowthInv(lines, cap, best, Start(lines, best))
  {
    RunGrowsDown(lines, best, best);
    assert Texts(lines)[best..best] == [];
    assert Texts(lines)[best + 1..best + 1] == [];
  }

  lemma StepDownInv(lines: seq<Line>, cap: int, best: nat, g: Growth)
    requires GrowthInv(lines, cap, best, g)
    requires CanDown(lines, cap, g) && (!CanUp(lines, cap, g) || g.below <= g.above)
    ensures GrowthInv(lines, cap, best, StepDown(lines, g))
  {
    RunGrowsDown(lines, best + 1, g.high + 1);
    RunGrowsDown(lines, g.low, g.high + 1);
  }

  lemma StepUpInv(lines: seq<Line>, cap: int, best: nat, g: Growth)
    requires GrowthInv(lines, cap, best, g)
    requires CanUp(lines, cap, g) && !(CanDown(lines, cap, g) && g.below <= g.above)
    ensures GrowthInv(lines, cap, best, StepUp(lines, g))
  {
    RunGrowsUp(lines, g.low, best);
    RunGrowsUp(lines, g.low, g.high + 1);
  }

  /** The grown window keeps the invariant, and neither neighbouring line would still fit. */
  lemma {:induction false} GrowIsMaximal(lines: seq<Line>, cap: int, best: nat, g: Growth)
    requires GrowthInv(lines, cap, best, g)
    ensures GrowthInv(lines, cap, best, Grow(lines, cap, g))
    ensures !CanUp(lines, cap, Grow(lines, cap, g)) && !CanDown(lines, cap, Grow(lines, cap, g))
    decreases g.low + |lines| - g.high
  {
    if CanDown(lines, cap, g) && (!CanUp(lines, cap, g) || g.below <= g.above) {
      StepDownInv(lines, cap, best, g);
      GrowIsMaximal(lines, cap, best, StepDown(lines, g));
    } else if CanUp(lines, cap, g) {
      StepUpInv(lines, cap, best, g);
      GrowIsMaximal(lines, cap, best, StepUp(lines, g));
    }
  }

  // ---------- main results about the window ----------

  /** The window is the grown run less blank lines at its edges, down to a non-blank line or the anchor. */
  ghost predicate TrimOf(lines: seq<Line>, g: Growth, p: Plan)
    requires PlanFits(p, lines)
  {
    && g.low <= p.low && p.high <= g.high + 1 <= |lines|
    && (forall i :: g.low <= i < p.low ==> lines[i].text == "")
    && (forall i :: p.high <= i <= g.high ==> lines[i].text == "")
    && (p.low == p.best || lines[p.low].text != "")
    && (p.high == p.best + 1 || lines[p.high - 1].text != "")
  }

  lemma WindowIsTrimmedGrowth(q: Query, lines: seq<Line>, best: nat, cap: nat)
    requires best < |lines| && |lines[best].text| <= cap
    ensures var p := WindowPlan(q, lines, best, cap);
            var g := Grow(lines, cap, Start(lines, best));
            && PlanFits(p, lines) && GrowthInv(lines, cap, best, g) && TrimOf(lines, g, p)
            && !CanUp(lines, cap, g) && !CanDown(lines, cap, g)
  {
    PlanIsInRange(q, lines, best, cap);
    StartInv(lines, cap, best);
    var g := Grow(lines, cap, Start(lines, best));
    GrowIsMaximal(lines, cap, best, Start(lines, best));
    TrimLowRange(lines, g.low, best);
    TrimHighRange(lines, g.high, best);
  }

  /** Which line and which cap an anchored excerpt is cut with. */
  lemma PlanOrigin(q: Query, ordered: seq<Chunk>, baselineIndex: int, baselineText: string, p: Plan)
    requires AnchorPlan(q, ordered, baselineIndex, baselineText) == Some(p)
    ensures var lines := Stream(ordered);
            && p.best < |lines|
            && p.best == Best(q, lines, |lines|)
            && p.cap == Cap(baselineIndex, baselineText, lines[p.best].chunk)
            && p == WindowPlan(q, lines, p.best, p.cap)
  {
  }

  /** An anchored text with its ordinal is no longer than the baseline text with its own. */
  lemma ExcerptIsShorter(q: Query, ordered: seq<Chunk>, baselineIndex: int, baselineText: string, a: Anchored)
    requires AnchoredExcerpt(q, ordered, baselineIndex, baselineText) == Some(a)
    ensures |a.text| + |Str(a.chunkIndex + 1)| <= |baselineText| + |Str(baselineIndex + 1)|
  {
    var lines, p := Stream(ordered), AnchorPlan(q, ordered, baselineIndex, baselineText).value;
    PlanOrigin(q, ordered, baselineIndex, baselineText, p);
    WindowFitsCap(q, lines, p.best, p.cap);
  }

  /** The window around a line that fits: it holds the first line of maximal score, it is the grown run
      less blank edge lines, the grown run's joined length is what the loop counted and at most the cap,
      the two sides are balanced (`GrowthInv`), and neither neighbouring line would still have fitted. */
  lemma AnchoredWindow(q: Query, lines: seq<Line>, best: nat, cap: nat)
    requires best < |lines| && best == Best(q, lines, |lines|) && |lines[best].text| <= cap
    ensures var p := WindowPlan(q, lines, best, cap);
            var g := Grow(lines, cap, Start(lines, best));
            && PlanFits(p, lines)
            && PlanText(q, lines, p) == RunText(lines, p.low, p.high)
            && FirstMaximal(q, lines, best)
            && GrowthInv(lines, cap, best, g)
            && TrimOf(lines, g, p)
            && |RunText(lines, g.low, g.high + 1)| == g.length <= cap
            && !CanUp(lines, cap, g) && !CanDown(lines, cap, g)
  {
    assert FirstMaximal(q, lines, best) by {
      BestIsFirstMaximal(q, lines, |lines|);
    }
    WindowIsTrimmedGrowth(q, lines, best, cap);
    var g := Grow(lines, cap, Start(lines, best));
    assert |RunText(lines, g.low, g.high + 1)| == g.length by {
      RunLength(lines, g.low, g.high + 1);
    }
  }

  /** A line longer than the cap is cut to exactly the cap. No other slice of that length is closer to
      being centred on the midpoint of the matches, and the midpoint itself stays inside when the spans
      lie inside the line. A line without a match is cut behind its first characters. */
  lemma OverlongWindow(q: Query, line: string, cap: nat, other: nat)
    requires 0 < cap < |line| && other + cap <= |line|
    ensures var start := TrimStart(q, line, cap);
            && start + cap <= |line|
            && TrimLine(q, line, cap) == line[start..start + cap]
            && (|q.matches(line)| == 0 ==> TrimLine(q, line, cap) == line[..cap])
            && (|q.matches(line)| > 0 ==>
                  var center := (q.matches(line)[0].0 + q.matches(line)[|q.matches(line)| - 1].1) / 2;
                  && Distance(start, center - cap / 2) <= Distance(other, center - cap / 2)
                  && (center <= |line| ==> start <= center <= start + cap))
  {
  }

  function Distance(a: int, b: int): nat {
    if a < b then b - a else a - b
  }

  /** The window's text never exceeds the cap, whichever way it was cut. */
  lemma WindowFitsCap(q: Query, lines: seq<Line>, best: nat, cap: nat)
    requires best < |lines|
    ensures PlanFits(WindowPlan(q, lines, best, cap), lines)
    ensures |PlanText(q, lines, WindowPlan(q, lines, best, cap))| <= cap
    ensures |lines[best].text| > cap ==> |PlanText(q, lines, WindowPlan(q, lines, best, cap))| == cap
  {
    PlanIsInRange(q, lines, best, cap);
    if |lines[best].text| <= cap {
      GrownWindowFits(q, lines, best, cap);
    }
  }

  lemma GrownWindowFits(q: Query, lines: seq<Line>, best: nat, cap: nat)
    requires best < |lines| && |lines[best].text| <= cap
    ensures var p := WindowPlan(q, lines, best, cap);
            PlanFits(p, lines) && |RunText(lines, p.low, p.high)| <= cap
  {
    WindowIsTrimmedGrowth(q, lines, best, cap);
    var p, g := WindowPlan(q, lines, best, cap), Grow(lines, cap, Start(lines, best));
    ShorterRun(lines, g.low, p.low, p.high, g.high + 1);
    RunLength(lines, p.low, p.high);
  }

  lemma ShorterRun(lines: seq<Line>, a: nat, b: nat, c: nat, d: nat)
    requires a <= b <= c <= d <= |lines|
    ensures RunCost(lines, b, c) <= RunCost(lines, a, d)
  {
    var t := Texts(lines);
    assert t[a..d] == t[a..b] + (t[b..c] + t[c..d]);
    LineCostConcat(t[a..b], t[b..c] + t[c..d]);
    LineCostConcat(t[b..c], t[c..d]);
  }

  /** Joining a run to the run below it with one newline gives one longer contiguous run. */
  lemma RunsJoin(lines: seq<Line>, a: nat, b: nat, c: nat)
    requires a < b < c <= |lines|
    ensures RunText(lines, a, b) + "\n" + RunText(lines, b, c) == RunText(lines, a, c)
  {
    var t := Texts(lines);
    assert t[a..c] == t[a..b] + t[b..c];
    JoinConcat("\n", t[a..b], t[b..c]);
  }

  /** The downward continuation exists only where the window's last line is enumerated, and is the longest
      enumerated run directly below the window within the extension cap. */
  lemma DownwardIsMaximal(q: Query, lines: seq<Line>, best: nat, cap: nat)
    requires best < |lines|
    ensures var p := WindowPlan(q, lines, best, cap);
            && PlanFits(p, lines)
            && (forall i :: p.high <= i < p.bottom ==> q.enumerated(lines[i].text))
            && (p.high < p.bottom ==> q.enumerated(lines[p.high - 1].text))
            && RunCost(lines, p.high, p.bottom) <= 1600
            && (q.enumerated(lines[p.high - 1].text) && p.bottom < |lines| && q.enumerated(lines[p.bottom].text) ==>
                  RunCost(lines, p.high, p.bottom + 1) > 1600)
  {
    PlanIsInRange(q, lines, best, cap);
    var p := WindowPlan(q, lines, best, cap);
    assert Texts(lines)[p.high..p.high] == [];
    ExtendDownIsMaximal(q, lines, p.high, 0);
    if p.bottom < |lines| {
      RunGrowsDown(lines, p.high, p.bottom);
    }
  }

  /** The same above the window. */
  lemma UpwardIsMaximal(q: Query, lines: seq<Line>, best: nat, cap: nat)
    requires best < |lines|
    ensures var p := WindowPlan(q, lines, best, cap);
            && PlanFits(p, lines)
            && (forall i :: p.top <= i < p.low ==> q.enumerated(lines[i].text))
            && (p.top < p.low ==> q.enumerated(lines[p.low].text))
            && RunCost(lines, p.top, p.low) <= 1600
            && (q.enumerated(lines[p.low].text) && p.top > 0 && q.enumerated(lines[p.top - 1].text) ==>
                  RunCost(lines, p.top - 1, p.low) > 1600)
  {
    PlanIsInRange(q, lines, best, cap);
    var p := WindowPlan(q, lines, best, cap);
    assert Texts(lines)[p.low..p.low] == [];
    ExtendUpIsMaximal(q, lines, p.low, 0);
    if p.top > 0 {
      RunGrowsUp(lines, p.top, p.low);
    }
  }

  /** Both continuations applied to an uncut window give one contiguous run of the stream. */
  lemma ContinuationsJoin(lines: seq<Line>, p: Plan)
    requires PlanFits(p, lines) && p.top < p.low && p.high < p.bottom
    ensures RunText(lines, p.top, p.low) + "\n" + (RunText(lines, p.low, p.high) + "\n" + RunText(lines, p.high, p.bottom))
         == RunText(lines, p.top, p.bottom)
  {
    RunsJoin(lines, p.low, p.high, p.bottom);
    RunsJoin(lines, p.top, p.low, p.bottom);
  }

  // ---------- chunks inside the stream ----------

  lemma {:induction false} StreamPrefix(chunks: seq<Chunk>, n: nat)
    requires n <= |chunks|
    ensures |Stream(chunks[..n])| <= |Stream(chunks)|
    ensures Stream(chunks)[..|Stream(chunks[..n])|] == Stream(chunks[..n])
  {
    if n == |chunks| {
      assert chunks[..n] == chunks;
    } else {
      var m := |chunks| - 1;
      StreamPrefix(chunks[..m], n);
      assert chunks[..m][..n] == chunks[..n];
    }
  }

  lemma BodyLines(chunks: seq<Chunk>, k: nat)
    requires k < |chunks|
    ensures var texts := Split(chunks[k].text);
            && BodyEnd(chunks, k) == BodyStart(chunks, k) + |texts| <= |Stream(chunks)|
            && Stream(chunks)[BodyStart(chunks, k)..BodyEnd(chunks, k)] == TagLines(chunks[k].index, texts)
  {
    var init := chunks[..k + 1];
    assert init[..|init| - 1] == chunks[..k];
    StreamPrefix(chunks, k + 1);
    assert Stream(init)[BodyStart(chunks, k)..] == TagLines(chunks[k].index, Split(chunks[k].text));
  }

  lemma TagsAndTexts(lines: seq<Line>, a: nat, b: nat, chunk: int, texts: seq<string>)
    requires a <= b <= |lines| && lines[a..b] == TagLines(chunk, texts)
    ensures Texts(lines)[a..b] == texts
    ensures forall i :: a <= i < b ==> lines[i].chunk == chunk
  {
    forall i | a <= i < b
      ensures lines[i] == Line(chunk, texts[i - a])
    {
      assert lines[i] == lines[a..b][i - a];
    }
  }

  /** The chunk's lines in the stream join to exactly the chunk's text and carry its index. */
  lemma BodyIsChunk(chunks: seq<Chunk>, k: nat)
    requires k < |chunks|
    ensures BodyStart(chunks, k) < BodyEnd(chunks, k) <= |Stream(chunks)|
    ensures RunText(Stream(chunks), BodyStart(chunks, k), BodyEnd(chunks, k)) == chunks[k].text
    ensures forall i :: BodyStart(chunks, k) <= i < BodyEnd(chunks, k) ==> Stream(chunks)[i].chunk == chunks[k].index
  {
    BodyLines(chunks, k);
    TagsAndTexts(Stream(chunks), BodyStart(chunks, k), BodyEnd(chunks, k), chunks[k].index, Split(chunks[k].text));
    JoinUndoesSplit(chunks[k].text);
  }

  lemma BodiesAreDisjoint(chunks: seq<Chunk>, j: nat, k: nat)
    requires j < k < |chunks|
    ensures BodyEnd(chunks, j) <= BodyStart(chunks, k)
  {
    StreamPrefix(chunks[..k], j + 1);
    assert chunks[..k][..j + 1] == chunks[..j + 1];
  }

  /** Line l lies in the body of chunk k or is the seam before it. */
  predicate InChunk(chunks: seq<Chunk>, k: nat, l: nat)
    requires k < |chunks|
  {
    BodyStart(chunks, k) <= l + (if k == 0 then 0 else 1) && l < BodyEnd(chunks, k)
  }

  lemma SamePrefix(chunks: seq<Chunk>, n: nat, k: nat)
    requires k < n <= |chunks|
    ensures BodyStart(chunks[..n], k) == BodyStart(chunks, k) && BodyEnd(chunks[..n], k) == BodyEnd(chunks, k)
  {
    assert chunks[..n][..k] == chunks[..k] && chunks[..n][..k + 1] == chunks[..k + 1];
  }

  /** Every line belongs to a chunk and carries its index; the seams are blank. */
  lemma {:induction false} LineHasChunk(chunks: seq<Chunk>, l: nat) returns (k: nat)
    requires l < |Stream(chunks)|
    ensures k < |chunks| && InChunk(chunks, k, l)
    ensures Stream(chunks)[l].chunk == chunks[k].index
    ensures l < BodyStart(chunks, k) ==> Stream(chunks)[l].text == ""
  {
    var n := |chunks| - 1;
    var before, c := Stream(chunks[..n]), chunks[n];
    var seam := if n == 0 then [] else [Line(c.index, "")];
    assert Stream(chunks) == before + seam + TagLines(c.index, Split(c.text));
    assert chunks[..n + 1] == chunks;
    if l < |before| {
      k := LineHasChunk(chunks[..n], l);
      SamePrefix(chunks, n, k);
    } else {
      k := n;
    }
  }
}
